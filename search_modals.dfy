/**
 * The product and customer search dialogs: each filters a fixed list by a text term, keeping
 * the list's order, and selecting an entry hands it to the caller and closes the dialog.
 */
module SearchModals {
  import opened Text
  import opened InvoiceTypes
  import InvoiceComposer

  // ---------------------------------------------------------------------------
  // Filtering
  // ---------------------------------------------------------------------------

  /** `Array.prototype.filter`: the elements that satisfy `keep`, in their order. */
  function Filter<T>(s: seq<T>, keep: T -> bool): (r: seq<T>)
    ensures |r| <= |s|
  {
    if s == [] then [] else (if keep(s[0]) then [s[0]] else []) + Filter(s[1..], keep)
  }

  /** An element is kept exactly when it is in the list and satisfies `keep`. */
  lemma {:induction false} FilterMembers<T>(s: seq<T>, keep: T -> bool, x: T)
    ensures x in Filter(s, keep) <==> x in s && keep(x)
    decreases |s|
  {
    if s != [] {
      FilterMembers(s[1..], keep, x);
      assert s == [s[0]] + s[1..];
    }
  }

  /** `r` is `s` with some elements left out and the rest in their order. */
  predicate Subsequence<T(==)>(r: seq<T>, s: seq<T>)
    decreases |s|
  {
    if r == [] then true
    else if s == [] then false
    else (r[0] == s[0] && Subsequence(r[1..], s[1..])) || Subsequence(r, s[1..])
  }

  /** The filtered list keeps the original order. */
  lemma {:induction false} FilterIsSubsequence<T>(s: seq<T>, keep: T -> bool)
    ensures Subsequence(Filter(s, keep), s)
    decreases |s|
  {
    if s != [] {
      var rest := Filter(s[1..], keep);
      FilterIsSubsequence(s[1..], keep);
      if keep(s[0]) {
        assert Filter(s, keep) == [s[0]] + rest;
        assert ([s[0]] + rest)[1..] == rest;
      } else {
        assert Filter(s, keep) == rest;
        if rest != [] {
          assert Subsequence(rest, s[1..]);
        }
      }
    }
  }

  /** When every element passes, the list is shown whole. */
  lemma {:induction false} FilterKeepsAll<T>(s: seq<T>, keep: T -> bool)
    requires forall i :: 0 <= i < |s| ==> keep(s[i])
    ensures Filter(s, keep) == s
    decreases |s|
  {
    if s != [] {
      assert keep(s[0]);
      FilterKeepsAll(s[1..], keep);
    }
  }

  /** Every string contains the empty string. */
  lemma ContainsEmpty(s: string)
    ensures Contains(s, "")
  {
    assert IsPrefix("", s[0..]);
  }

  // ---------------------------------------------------------------------------
  // Products
  // ---------------------------------------------------------------------------

  /** A product of the dialog's list. */
  datatype Product = Product(codigo: string, descripcion: string, unidad: string, precio: real, tipoIva: string)

  /** The dialog's fixed list. */
  const Products := [
    Product("PROD001", "Producto de Ejemplo 1", "UNI", 10000.0, Iva10),
    Product("PROD002", "Producto de Ejemplo 2", "KG", 5000.0, Iva5),
    Product("SERV001", "Servicio de Consultoría", "UNI", 50000.0, Exentas)
  ]

  /** A product is listed when its code or its description contains the term, ignoring case. */
  predicate ProductMatches(term: string, p: Product) {
    Contains(ToLower(p.codigo), ToLower(term)) || Contains(ToLower(p.descripcion), ToLower(term))
  }

  /** `filteredProducts`. */
  function FilteredProducts(products: seq<Product>, term: string): seq<Product> {
    Filter(products, p => ProductMatches(term, p))
  }

  /** A product is shown exactly when it is in the list and matches; the order is the list's. */
  lemma FilteredProductsSpec(products: seq<Product>, term: string, p: Product)
    ensures p in FilteredProducts(products, term) <==> p in products && ProductMatches(term, p)
    ensures Subsequence(FilteredProducts(products, term), products)
  {
    FilterMembers(products, q => ProductMatches(term, q), p);
    FilterIsSubsequence(products, q => ProductMatches(term, q));
  }

  /** An empty search shows every product. */
  lemma EmptyTermShowsAllProducts(products: seq<Product>)
    ensures FilteredProducts(products, "") == products
  {
    forall i | 0 <= i < |products| ensures ProductMatches("", products[i]) {
      ContainsEmpty(ToLower(products[i].codigo));
    }
    FilterKeepsAll(products, q => ProductMatches("", q));
  }

  /** What the dialog reports to its caller, in order. */
  datatype Event<T> = Selected(value: T) | Closed

  /** The line handed to the composer: the product's fields with quantity one. */
  function DraftFor(p: Product): (d: ItemDraft)
    ensures d.codigo == p.codigo && d.descripcion == p.descripcion && d.unidad == p.unidad
    ensures d.precio == p.precio && d.tipoIva == p.tipoIva && d.cantidad == 1.0
  {
    ItemDraft(p.codigo, p.descripcion, p.unidad, 1.0, p.precio, p.tipoIva)
  }

  /** `handleSelectProduct`: the line is selected, then the dialog closes. */
  function SelectProduct(p: Product): seq<Event<ItemDraft>> {
    [Selected(DraftFor(p)), Closed]
  }

  /** Once the composer gives the selected product an id, the line costs the product's price. */
  lemma SelectedProductLine(p: Product, id: int)
    ensures var it := WithId(DraftFor(p), id);
            && it.id == id && it.codigo == p.codigo && it.precio == p.precio && it.tipoIva == p.tipoIva
            && InvoiceComposer.LineAmount(it) == p.precio
  {
  }

  // ---------------------------------------------------------------------------
  // Customers
  // ---------------------------------------------------------------------------

  /** The dialog's fixed list. */
  const Customers := [
    Client(1, "Cliente Ejemplo 1", "12345678-9", "Av. Principal 123", "0981-123-456", "cliente1@email.com"),
    Client(2, "Cliente Ejemplo 2", "87654321-0", "Calle Secundaria 456", "0981-654-321", "cliente2@email.com")
  ]

  /** A customer is listed when the name contains the term ignoring case, or the RUC contains it as typed. */
  predicate CustomerMatches(term: string, c: Client) {
    Contains(ToLower(c.nombre), ToLower(term)) || Contains(c.ruc, term)
  }

  /** `filteredCustomers`. */
  function FilteredCustomers(customers: seq<Client>, term: string): seq<Client> {
    Filter(customers, c => CustomerMatches(term, c))
  }

  /** A customer is shown exactly when it is in the list and matches; the order is the list's. */
  lemma FilteredCustomersSpec(customers: seq<Client>, term: string, c: Client)
    ensures c in FilteredCustomers(customers, term) <==> c in customers && CustomerMatches(term, c)
    ensures Subsequence(FilteredCustomers(customers, term), customers)
  {
    FilterMembers(customers, q => CustomerMatches(term, q), c);
    FilterIsSubsequence(customers, q => CustomerMatches(term, q));
  }

  /** An empty search shows every customer. */
  lemma EmptyTermShowsAllCustomers(customers: seq<Client>)
    ensures FilteredCustomers(customers, "") == customers
  {
    forall i | 0 <= i < |customers| ensures CustomerMatches("", customers[i]) {
      ContainsEmpty(customers[i].ruc);
    }
    FilterKeepsAll(customers, q => CustomerMatches("", q));
  }

  /** `handleSelectCustomer`: the customer is handed over unchanged, then the dialog closes. */
  function SelectCustomer(c: Client): seq<Event<Client>> {
    [Selected(c), Closed]
  }

  /** A search for `PROD` lists the two products and leaves the service out, whatever the case. */
  lemma ProductSearchExample()
    ensures FilteredProducts(Products, "PROD") == Products[..2]
  {
    ProdMatchesProducts();
    ProdMissesService();
    var keep := p => ProductMatches("PROD", p);
    assert Filter(Products[2..], keep) == [] by {
      assert Products[2..][1..] == [];
    }
    assert Filter(Products[1..], keep) == [Products[1]] by {
      assert Products[1..][1..] == Products[2..];
    }
    assert Products[..2] == [Products[0], Products[1]];
  }

  lemma ProdMatchesProducts()
    ensures ProductMatches("PROD", Products[0]) && ProductMatches("PROD", Products[1])
  {
    assert ToLower("PROD") == "prod";
    assert ToLower("PROD001") == "prod001";
    assert ToLower("PROD002") == "prod002";
    OccurrenceAt("prod001", "prod", 0);
    OccurrenceAt("prod002", "prod", 0);
  }

  lemma ProdMissesService()
    ensures !ProductMatches("PROD", Products[2])
  {
    assert ToLower("PROD") == "prod";
    var code, name := ToLower("SERV001"), ToLower("Servicio de Consultoría");
    assert code == "serv001";
    assert forall i :: 0 <= i < |name| ==> name[i] != 'p';
    AbsentChar(code, "prod", 0);
    AbsentChar(name, "prod", 0);
  }

  /** A search for `EJEMPLO 2` finds the second customer only: the name is matched ignoring case. */
  lemma CustomerSearchExample()
    ensures FilteredCustomers(Customers, "EJEMPLO 2") == [Customers[1]]
  {
    EjemploMatches();
    var keep := c => CustomerMatches("EJEMPLO 2", c);
    assert Filter(Customers[1..], keep) == [Customers[1]] by {
      assert Customers[1..][1..] == [];
    }
  }

  lemma EjemploMatches()
    ensures CustomerMatches("EJEMPLO 2", Customers[1]) && !CustomerMatches("EJEMPLO 2", Customers[0])
  {
    SecondNameMatches();
    FirstNameMisses();
    AbsentChar(Customers[0].ruc, "EJEMPLO 2", 0);
  }

  lemma SecondNameMatches()
    ensures Contains(ToLower(Customers[1].nombre), ToLower("EJEMPLO 2"))
  {
    assert ToLower("EJEMPLO 2") == "ejemplo 2";
    var second := ToLower("Cliente Ejemplo 2");
    assert second[8..] == "ejemplo 2";
    OccurrenceAt(second, "ejemplo 2", 8);
  }

  lemma FirstNameMisses()
    ensures !Contains(ToLower(Customers[0].nombre), ToLower("EJEMPLO 2"))
  {
    assert ToLower("EJEMPLO 2") == "ejemplo 2";
    var first := ToLower("Cliente Ejemplo 1");
    assert first == "cliente ejemplo 1";
    assert forall i :: 0 <= i < |first| ==> first[i] != '2';
    AbsentChar(first, "ejemplo 2", 8);
  }
}

/**
 * The paging of the invoice list: the window of at most five page buttons, the
 * "Mostrando a–b de n" range, and the page state that the previous, next, filter and
 * clear handlers move before they ask the backend for a page. The request itself is
 * asynchronous: starting it and receiving its answer are two separate steps here.
 */
module Pagination {
  import opened Wrappers
  import opened Text

  function Min(a: int, b: int): int { if a <= b then a else b }

  function Max(a: int, b: int): int { if a >= b then a else b }

  // ---------------------------------------------------------------------------
  // The page-button window
  // ---------------------------------------------------------------------------

  /** The number on button `i`: the first five, the last five, or five centred on the current page. */
  function PageNumber(totalPaginas: int, paginaActual: int, i: int): int {
    if totalPaginas <= 5 then i + 1
    else if paginaActual <= 3 then i + 1
    else if paginaActual >= totalPaginas - 2 then totalPaginas - 4 + i
    else paginaActual - 2 + i
  }

  /** `Array.from({ length: Math.min(5, totalPaginas) }, …)`. */
  function PageWindow(totalPaginas: nat, paginaActual: int): (w: seq<int>)
    ensures |w| == Min(5, totalPaginas)
  {
    seq(Min(5, totalPaginas), i => PageNumber(totalPaginas, paginaActual, i))
  }

  /** The buttons are consecutive pages, in ascending order. */
  lemma WindowConsecutive(totalPaginas: nat, paginaActual: int)
    ensures var w := PageWindow(totalPaginas, paginaActual);
            forall i :: 0 <= i < |w| - 1 ==> w[i + 1] == w[i] + 1
  {
  }

  /** Every button is an existing page, whatever the current page is. */
  lemma WindowInRange(totalPaginas: nat, paginaActual: int)
    ensures var w := PageWindow(totalPaginas, paginaActual);
            forall i :: 0 <= i < |w| ==> 1 <= w[i] <= totalPaginas
  {
  }

  /** The current page, when it exists, always has its own button. */
  lemma WindowShowsCurrent(totalPaginas: nat, paginaActual: int)
    requires 1 <= paginaActual <= totalPaginas
    ensures paginaActual in PageWindow(totalPaginas, paginaActual)
  {
    var w := PageWindow(totalPaginas, paginaActual);
    var i := if totalPaginas <= 5 || paginaActual <= 3 then paginaActual - 1
             else if paginaActual >= totalPaginas - 2 then paginaActual - totalPaginas + 4
             else 2;
    assert w[i] == paginaActual;
  }

  /** With five pages or fewer every page has a button. */
  lemma SmallWindowIsAllPages(totalPaginas: nat, paginaActual: int)
    requires totalPaginas <= 5
    ensures var w := PageWindow(totalPaginas, paginaActual);
            forall n :: 1 <= n <= totalPaginas ==> n in w
  {
    var w := PageWindow(totalPaginas, paginaActual);
    forall n | 1 <= n <= totalPaginas ensures n in w {
      assert w[n - 1] == n;
    }
  }

  // ---------------------------------------------------------------------------
  // The result range
  // ---------------------------------------------------------------------------

  /** "Mostrando a a b de n": the first and last position shown on a page. */
  function RangeShown(paginaActual: int, limite: int, total: int): (int, int) {
    ((paginaActual - 1) * limite + 1, Min(paginaActual * limite, total))
  }

  /** On a page that holds results, the range lies within the results and spans at most one page. */
  lemma RangeWithinResults(paginaActual: int, limite: int, total: int)
    requires paginaActual >= 1 && limite >= 1 && (paginaActual - 1) * limite < total
    ensures var (a, b) := RangeShown(paginaActual, limite, total);
            1 <= a <= b <= total && b - a < limite
  {
    assert paginaActual * limite == (paginaActual - 1) * limite + limite;
    assert (paginaActual - 1) * limite >= 0;
  }

  /** Consecutive full pages show adjacent ranges. */
  lemma RangesAdjacent(paginaActual: int, limite: int, total: int)
    requires paginaActual * limite <= total
    ensures RangeShown(paginaActual + 1, limite, total).0 == RangeShown(paginaActual, limite, total).1 + 1
  {
    assert (paginaActual + 1 - 1) * limite == paginaActual * limite;
  }

  // ---------------------------------------------------------------------------
  // Requests
  // ---------------------------------------------------------------------------

  const LimitePorPagina := 10

  /** The parameters a handler passes to `loadDocumentos`; `None` is an absent property. */
  datatype ListarParams = ListarParams(page: Option<int>, limit: Option<int>, estado: Option<string>,
                                       numeroDocumento: Option<string>, cdc: Option<string>)

  /** The request sent to the backend. */
  datatype Request = Request(page: int, limit: int, sortBy: string, sortOrder: string,
                             estado: Option<string>, numeroDocumento: Option<string>, cdc: Option<string>)

  /** The pagination block of the backend's answer. */
  datatype Paginacion = Paginacion(total: int, totalPages: int, page: int, hasNextPage: bool, hasPrevPage: bool)

  /**
   * `{ page: params.page || paginaActual, limit: params.limit || limite, sortBy, sortOrder, ...params }`:
   * the spread puts back any page or limit the caller gave, even a falsy one.
   */
  function RequestFor(params: ListarParams, paginaActual: int): (r: Request)
    ensures r.page == (if params.page.Some? then params.page.value else paginaActual)
    ensures r.limit == (if params.limit.Some? then params.limit.value else LimitePorPagina)
    ensures r.sortBy == "fechaCreacion" && r.sortOrder == "DESC"
    ensures r.estado == params.estado && r.numeroDocumento == params.numeroDocumento && r.cdc == params.cdc
  {
    var page := if params.page.Some? && params.page.value != 0 then params.page.value else paginaActual;
    var limit := if params.limit.Some? && params.limit.value != 0 then params.limit.value else LimitePorPagina;
    Request(if params.page.Some? then params.page.value else page,
            if params.limit.Some? then params.limit.value else limit,
            "fechaCreacion", "DESC", params.estado, params.numeroDocumento, params.cdc)
  }

  /** The parameters `handleFilter` passes: page 1, and `todos` or an empty text meaning no filter. */
  function FilterParams(estado: string, numeroDocumento: string, cdc: string): (p: ListarParams)
    ensures p.page == Some(1) && p.limit == Some(LimitePorPagina)
    ensures p.estado.None? <==> estado == "todos"
    ensures p.estado.Some? ==> p.estado.value == estado
    ensures p.numeroDocumento.None? <==> numeroDocumento == ""
    ensures p.cdc.None? <==> cdc == ""
  {
    ListarParams(Some(1), Some(LimitePorPagina), if estado != "todos" then Some(estado) else None,
                 NonEmpty(numeroDocumento), NonEmpty(cdc))
  }

  /** Filtering always asks for the first page of ten. */
  lemma FilterRequestsFirstPage(estado: string, numeroDocumento: string, cdc: string, paginaActual: int)
    ensures var r := RequestFor(FilterParams(estado, numeroDocumento, cdc), paginaActual);
            r.page == 1 && r.limit == LimitePorPagina && (r.estado.None? <==> estado == "todos")
  {
  }

  /** The page `handlePreviousPage` moves to. */
  function PreviousOf(paginaActual: int): (n: int)
    ensures n >= 1
    ensures paginaActual > 1 ==> n == paginaActual - 1
    ensures paginaActual <= 1 ==> n == 1
  {
    Max(1, paginaActual - 1)
  }

  // ---------------------------------------------------------------------------
  // The page state
  // ---------------------------------------------------------------------------

  class FacturasPage {
    var paginaActual: int
    var loading: bool
    var totalDocumentos: int
    var totalPaginas: int
    var hasNextPage: bool
    var hasPrevPage: bool

    /** The state before the first page has arrived: page 1, loading, nothing known. */
    constructor()
      ensures paginaActual == 1 && loading && totalDocumentos == 0 && totalPaginas == 0
      ensures !hasNextPage && !hasPrevPage
    {
      paginaActual := 1;
      loading := true;
      totalDocumentos := 0;
      totalPaginas := 0;
      hasNextPage := false;
      hasPrevPage := false;
    }

    /** The first step of `loadDocumentos`: loading starts and the request is built. */
    method StartLoad(params: ListarParams) returns (req: Request)
      modifies this
      ensures req == RequestFor(params, old(paginaActual)) && loading
      ensures paginaActual == old(paginaActual) && totalDocumentos == old(totalDocumentos)
      ensures totalPaginas == old(totalPaginas) && hasNextPage == old(hasNextPage) && hasPrevPage == old(hasPrevPage)
    {
      loading := true;
      req := RequestFor(params, paginaActual);
    }

    /** The last step of `loadDocumentos` on success: the answer's pagination is taken over. */
    method Loaded(p: Paginacion)
      modifies this
      ensures !loading && totalDocumentos == p.total && totalPaginas == p.totalPages
      ensures paginaActual == p.page && hasNextPage == p.hasNextPage && hasPrevPage == p.hasPrevPage
    {
      totalDocumentos := p.total;
      totalPaginas := p.totalPages;
      paginaActual := p.page;
      hasNextPage := p.hasNextPage;
      hasPrevPage := p.hasPrevPage;
      loading := false;
    }

    /** The last step of `loadDocumentos` on failure: only loading ends. */
    method LoadFailed()
      modifies this
      ensures !loading && paginaActual == old(paginaActual) && totalDocumentos == old(totalDocumentos)
      ensures totalPaginas == old(totalPaginas) && hasNextPage == old(hasNextPage) && hasPrevPage == old(hasPrevPage)
    {
      loading := false;
    }

    /** `handlePageChange`: moves to page `n` and asks for it. */
    method PageChange(n: int) returns (req: Request)
      modifies this
      ensures paginaActual == n && loading && req == RequestFor(ListarParams(Some(n), Some(LimitePorPagina), None, None, None), n)
      ensures req.page == n && req.limit == LimitePorPagina
      ensures totalDocumentos == old(totalDocumentos) && totalPaginas == old(totalPaginas)
      ensures hasNextPage == old(hasNextPage) && hasPrevPage == old(hasPrevPage)
    {
      paginaActual := n;
      req := StartLoad(ListarParams(Some(n), Some(LimitePorPagina), None, None, None));
    }

    /** `handlePreviousPage`: one page back, never below 1, only with a previous page and when idle. */
    method PreviousPage() returns (req: Option<Request>)
      modifies this
      ensures req.Some? <==> old(hasPrevPage) && !old(loading)
      ensures req.Some? ==> paginaActual == PreviousOf(old(paginaActual)) && loading && req.value.page == paginaActual
      ensures req.None? ==> paginaActual == old(paginaActual) && loading == old(loading)
      ensures totalDocumentos == old(totalDocumentos) && totalPaginas == old(totalPaginas)
      ensures hasNextPage == old(hasNextPage) && hasPrevPage == old(hasPrevPage)
    {
      if hasPrevPage && !loading {
        var r := PageChange(PreviousOf(paginaActual));
        req := Some(r);
      } else {
        req := None;
      }
    }

    /** `handleNextPage`: one page on, only with a next page and when idle. */
    method NextPage() returns (req: Option<Request>)
      modifies this
      ensures req.Some? <==> old(hasNextPage) && !old(loading)
      ensures req.Some? ==> paginaActual == old(paginaActual) + 1 && loading && req.value.page == paginaActual
      ensures req.None? ==> paginaActual == old(paginaActual) && loading == old(loading)
      ensures totalDocumentos == old(totalDocumentos) && totalPaginas == old(totalPaginas)
      ensures hasNextPage == old(hasNextPage) && hasPrevPage == old(hasPrevPage)
    {
      if hasNextPage && !loading {
        var r := PageChange(paginaActual + 1);
        req := Some(r);
      } else {
        req := None;
      }
    }

    /** `handleFilter`: back to page 1, asking for the filtered first page. */
    method Filter(estado: string, numeroDocumento: string, cdc: string) returns (req: Request)
      modifies this
      ensures paginaActual == 1 && loading && req == RequestFor(FilterParams(estado, numeroDocumento, cdc), 1)
      ensures totalDocumentos == old(totalDocumentos) && totalPaginas == old(totalPaginas)
      ensures hasNextPage == old(hasNextPage) && hasPrevPage == old(hasPrevPage)
    {
      paginaActual := 1;
      req := StartLoad(FilterParams(estado, numeroDocumento, cdc));
    }

    /** `handleClear`: back to page 1 without filters. */
    method Clear() returns (req: Request)
      modifies this
      ensures paginaActual == 1 && loading
      ensures req == Request(1, LimitePorPagina, "fechaCreacion", "DESC", None, None, None)
      ensures totalDocumentos == old(totalDocumentos) && totalPaginas == old(totalPaginas)
      ensures hasNextPage == old(hasNextPage) && hasPrevPage == old(hasPrevPage)
    {
      paginaActual := 1;
      req := StartLoad(ListarParams(Some(1), Some(LimitePorPagina), None, None, None));
    }
  }
}

/** Table pagination state (utils/pagination.js): the page size, the current
    page and the data being paged, with the page-number window drawn by
    `render`. */
module Paginacao {
  import Seqs

  /** `Math.ceil(total / porPagina)`. */
  function TotalPaginas(total: nat, porPagina: nat): (n: nat)
    requires porPagina > 0
    ensures total <= n * porPagina
    ensures n == 0 || (n - 1) * porPagina < total
  {
    (total + porPagina - 1) / porPagina
  }

  /** Items of page `p`: `data.slice((p - 1) * porPagina, p * porPagina)`. */
  function Pagina<T>(data: seq<T>, porPagina: nat, p: int): (r: seq<T>)
    requires porPagina > 0
    ensures |r| <= porPagina
    ensures 1 <= p && (p - 1) * porPagina <= |data| ==>
      r == data[(p - 1) * porPagina..if p * porPagina <= |data| then p * porPagina else |data|]
  {
    var inicio := (p - 1) * porPagina;
    Seqs.JsSlice(data, inicio, inicio + porPagina)
  }

  /** An existing page starts inside the data: it is never empty. */
  lemma PaginaExiste(total: nat, porPagina: nat, p: int)
    requires porPagina > 0
    ensures 1 <= p <= TotalPaginas(total, porPagina) ==> (p - 1) * porPagina < total
  {
    var n := TotalPaginas(total, porPagina);
    if 1 <= p <= n {
      MulMonotona(p - 1, n - 1, porPagina);
    }
  }

  lemma MulMonotona(a: nat, b: nat, c: nat)
    requires a <= b
    ensures a * c <= b * c
  {
    assert b * c == a * c + (b - a) * c;
  }

  /** Pages 1..k laid end to end. */
  function Paginas<T>(data: seq<T>, porPagina: nat, k: nat): seq<T>
    requires porPagina > 0
  {
    if k == 0 then [] else Paginas(data, porPagina, k - 1) + Pagina(data, porPagina, k)
  }

  function Min(a: int, b: int): int {
    if a <= b then a else b
  }

  /** A slice that starts where a prefix ends extends that prefix. */
  lemma SliceContinua<T>(data: seq<T>, a: nat, n: nat)
    ensures data[..Min(a, |data|)] + Seqs.JsSlice(data, a, a + n) == data[..Min(a + n, |data|)]
  {
    if a <= |data| {
      assert data[..a] + data[a..Min(a + n, |data|)] == data[..Min(a + n, |data|)];
    }
  }

  lemma MulPasso(k: nat, n: nat)
    requires k > 0
    ensures k * n == (k - 1) * n + n
  {
  }

  /** The first `k` pages together are the first `k · porPagina` items. */
  lemma {:induction false} PaginasPrefixo<T>(data: seq<T>, porPagina: nat, k: nat)
    requires porPagina > 0
    ensures Paginas(data, porPagina, k) == data[..Min(k * porPagina, |data|)]
  {
    if k > 0 {
      var a: nat := (k - 1) * porPagina;
      MulPasso(k, porPagina);
      calc {
        Paginas(data, porPagina, k);
        Paginas(data, porPagina, k - 1) + Pagina(data, porPagina, k);
        { PaginasPrefixo(data, porPagina, k - 1);
          assert Pagina(data, porPagina, k) == Seqs.JsSlice(data, a, a + porPagina); }
        data[..Min(a, |data|)] + Seqs.JsSlice(data, a, a + porPagina);
        { SliceContinua(data, a, porPagina); }
        data[..Min(a + porPagina, |data|)];
      }
    }
  }

  /** Pages 1..totalPages concatenate to the whole data. */
  lemma PaginasCobrem<T>(data: seq<T>, porPagina: nat)
    requires porPagina > 0
    ensures Paginas(data, porPagina, TotalPaginas(|data|, porPagina)) == data
  {
    PaginasPrefixo(data, porPagina, TotalPaginas(|data|, porPagina));
  }

  /** `goToPage`'s clamping: below 1 goes to 1, then above the last page
      goes to the last page (0 when there are no pages). */
  function Limitar(p: int, total: nat): (r: int)
    ensures total >= 1 ==> 1 <= r <= total
    ensures 1 <= p <= total ==> r == p
    ensures total == 0 ==> r == 0
  {
    var q := if p < 1 then 1 else p;
    if q > total then total else q
  }

  const MaxBotoes: nat := 7

  /** The numbered-button window of `render`: `[inicio, fim]`. */
  method JanelaBotoes(atual: int, total: nat) returns (inicio: int, fim: int)
    requires 1 <= atual <= total
    ensures 1 <= inicio <= atual <= fim <= total
    ensures fim - inicio + 1 == if total < MaxBotoes then total else MaxBotoes
  {
    inicio := if 1 > atual - MaxBotoes / 2 then 1 else atual - MaxBotoes / 2;
    fim := if total < inicio + MaxBotoes - 1 then total else inicio + MaxBotoes - 1;
    if fim - inicio < MaxBotoes - 1 {
      inicio := if 1 > fim - MaxBotoes + 1 then 1 else fim - MaxBotoes + 1;
    }
  }

  class Pagination<T> {
    var itemsPerPage: nat
    var currentPage: int
    var totalItems: nat
    var data: seq<T>

    /** The page size is positive, the item count is the data's length, and
        the current page is a real page (or 0 or 1 when there is none). */
    ghost predicate Valid()
      reads this
    {
      itemsPerPage > 0 && totalItems == |data|
      && (if TotalPaginas(totalItems, itemsPerPage) == 0 then 0 <= currentPage <= 1
          else 1 <= currentPage <= TotalPaginas(totalItems, itemsPerPage))
    }

    /** `new Pagination(selector, { itemsPerPage })`; an absent or zero
        option (`0` here) means 10 per page. */
    constructor (porPagina: nat)
      ensures Valid()
      ensures itemsPerPage == (if porPagina == 0 then 10 else porPagina)
      ensures currentPage == 1 && totalItems == 0 && data == []
    {
      itemsPerPage := if porPagina == 0 then 10 else porPagina;
      currentPage := 1;
      totalItems := 0;
      data := [];
    }

    /** `setData(data)`. */
    method SetData(novos: seq<T>)
      requires Valid()
      modifies this
      ensures Valid()
      ensures data == novos && totalItems == |novos| && currentPage == 1
      ensures itemsPerPage == old(itemsPerPage)
    {
      data := novos;
      totalItems := |novos|;
      currentPage := 1;
    }

    /** `getTotalPages()`. */
    function GetTotalPages(): (n: nat)
      reads this
      requires Valid()
      ensures totalItems <= n * itemsPerPage
      ensures n == 0 || (n - 1) * itemsPerPage < totalItems
    {
      TotalPaginas(totalItems, itemsPerPage)
    }

    /** `getCurrentPageData()`. */
    function GetCurrentPageData(): (r: seq<T>)
      reads this
      requires Valid()
      ensures |r| <= itemsPerPage
      ensures GetTotalPages() >= 1 ==> (currentPage - 1) * itemsPerPage < |data|
      ensures GetTotalPages() >= 1 ==>
        r == data[(currentPage - 1) * itemsPerPage..
                  if currentPage * itemsPerPage <= |data| then currentPage * itemsPerPage else |data|]
    {
      PaginaExiste(totalItems, itemsPerPage, currentPage);
      Pagina(data, itemsPerPage, currentPage)
    }

    /** `goToPage(page)`. */
    method GoToPage(page: int)
      requires Valid()
      modifies this
      ensures Valid()
      ensures currentPage == Limitar(page, GetTotalPages())
      ensures data == old(data) && totalItems == old(totalItems) && itemsPerPage == old(itemsPerPage)
    {
      var totalPages := GetTotalPages();
      var p := page;
      if p < 1 {
        p := 1;
      }
      if p > totalPages {
        p := totalPages;
      }
      currentPage := p;
    }

    /** `nextPage()`: on the last page nothing changes. */
    method NextPage()
      requires Valid()
      modifies this
      ensures Valid()
      ensures currentPage == Limitar(old(currentPage) + 1, GetTotalPages())
      ensures old(currentPage) == GetTotalPages() ==> currentPage == old(currentPage)
      ensures data == old(data) && totalItems == old(totalItems) && itemsPerPage == old(itemsPerPage)
    {
      GoToPage(currentPage + 1);
    }

    /** `prevPage()`: on page 1 nothing changes. */
    method PrevPage()
      requires Valid()
      modifies this
      ensures Valid()
      ensures currentPage == Limitar(old(currentPage) - 1, GetTotalPages())
      ensures old(currentPage) == 1 && GetTotalPages() >= 1 ==> currentPage == old(currentPage)
      ensures data == old(data) && totalItems == old(totalItems) && itemsPerPage == old(itemsPerPage)
    {
      GoToPage(currentPage - 1);
    }

    /** The page-number window `render` draws when there is more than one
        page. */
    method PageWindow() returns (startPage: int, endPage: int)
      requires Valid() && GetTotalPages() > 1
      ensures 1 <= startPage <= currentPage <= endPage <= GetTotalPages()
      ensures endPage - startPage + 1 <= MaxBotoes
    {
      startPage, endPage := JanelaBotoes(currentPage, GetTotalPages());
    }
  }
}

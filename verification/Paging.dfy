/** Page numbers and sizes from a request, and the pages they cut a result list into. */
module Paging {
  import opened Wrappers

  const INT_LIMIT := 0x8000_0000_0000_0000

  /** The value a signed 64-bit integer holds after arithmetic that wraps. */
  function Wrap(n: int): int {
    (n + INT_LIMIT) % (2 * INT_LIMIT) - INT_LIMIT
  }

  predicate IsInt(n: int) {
    -INT_LIMIT <= n < INT_LIMIT
  }

  /** A form value: not given, not a number, or a number. */
  datatype Field = Absent | Malformed | Number(n: int)

  method ParseQueryOps(pageSizeField: Field, pageField: Field) returns (r: Option<(int, int)>)
    ensures r.None? <==> pageSizeField.Malformed? || pageField.Malformed?
    ensures r.Some? ==>
              var (page, size) := r.value;
              && ((page == 0 && size == 0) || (page >= 1 && size >= 1))
              && (pageSizeField.Number? && pageSizeField.n >= 1 ==> size == pageSizeField.n)
              && (pageField.Number? && pageField.n >= 1 ==> page == pageField.n)
              && (page == 0 <==>
                    !(pageSizeField.Number? && pageSizeField.n >= 1) && !(pageField.Number? && pageField.n >= 1))
              && (page >= 1 && !(pageField.Number? && pageField.n >= 1) ==> page == 1)
              && (page >= 1 && !(pageSizeField.Number? && pageSizeField.n >= 1) ==> size == 10)
  {
    var pageSize, page := 0, 0;
    match pageSizeField {
      case Absent =>
      case Malformed => return None;
      case Number(n) =>
        pageSize := n;
        if pageSize < 0 {
          pageSize := 0;
        }
    }
    match pageField {
      case Absent =>
      case Malformed => return None;
      case Number(n) =>
        page := n;
        if page < 0 {
          page := 0;
        }
    }
    if pageSize > 0 && page == 0 {
      page := 1;
    }
    if page > 0 && pageSize == 0 {
      pageSize := 10;
    }
    return Some((page, pageSize));
  }

  function TotalPages(total: nat, size: int): int
    requires size >= 1
  {
    Wrap(total / size + 1)
  }

  function Offset(page: int, size: int): int {
    Wrap(Wrap(page - 1) * size)
  }

  /** LIMIT and OFFSET of one page; a negative offset is not a query. */
  function Page<T>(items: seq<T>, page: int, size: int): Option<seq<T>>
    requires page >= 1 && size >= 1
  {
    var o := Offset(page, size);
    if o < 0 then None
    else if o >= |items| then Some([])
    else Some(items[o..if o + size <= |items| then o + size else |items|])
  }

  /** Pages 1 to n, one after the other. */
  function Pages<T>(items: seq<T>, n: nat, size: int): Option<seq<T>>
    requires size >= 1
  {
    if n == 0 then Some([])
    else match (Pages(items, n - 1, size), Page(items, n, size))
      case (Some(before), Some(last)) => Some(before + last)
      case _ => None
  }

  lemma WrapIsIdentity(n: int)
    requires IsInt(n)
    ensures Wrap(n) == n
  {
  }

  lemma MulMonotone(a: int, b: int, size: int)
    requires 0 <= a <= b && size >= 1
    ensures 0 <= a * size <= b * size
  {
  }

  lemma OffsetIsExact(page: int, size: int)
    requires page >= 1 && size >= 1 && IsInt(page) && IsInt((page - 1) * size)
    ensures Offset(page, size) == (page - 1) * size
  {
    WrapIsIdentity(page - 1);
    WrapIsIdentity((page - 1) * size);
  }

  /** The first n pages are the first n times size items, as far as there are that many. */
  lemma {:induction false} PagesArePrefix<T>(items: seq<T>, n: nat, size: int)
    requires size >= 1 && IsInt(n) && IsInt(|items|)
    requires n >= 1 ==> (n - 1) * size <= |items|
    ensures Pages(items, n, size) == Some(items[..if n * size <= |items| then n * size else |items|])
  {
    if n > 0 {
      MulMonotone(if n == 1 then 0 else n - 2, n - 1, size);
      PagesArePrefix(items, n - 1, size);
      OffsetIsExact(n, size);
      assert n * size == (n - 1) * size + size;
      var lo, hi := (n - 1) * size, if n * size <= |items| then n * size else |items|;
      assert items[..lo] + items[lo..hi] == items[..hi];
      if lo == |items| {
        assert items[..lo] + [] == items[..hi];
      }
    }
  }

  /** Pages 1 to TotalPages make up exactly the whole list. */
  lemma PagesCoverList<T>(items: seq<T>, size: int)
    requires size >= 1 && |items| < INT_LIMIT - 1
    ensures TotalPages(|items|, size) >= 1
    ensures Pages(items, TotalPages(|items|, size), size) == Some(items)
  {
    var q := |items| / size;
    assert 0 <= q <= |items| by {
      QuotientBounds(|items|, size);
    }
    WrapIsIdentity(q + 1);
    QuotientBounds(|items|, size);
    assert (q + 1) * size == q * size + size;
    PagesArePrefix(items, q + 1, size);
    assert items[..|items|] == items;
  }

  lemma MulCancel(a: int, b: int, size: int)
    requires size >= 1 && a * size < b * size
    ensures a < b
  {
    assert (b - a) * size > 0;
  }

  lemma NotAboveProduct(q: int, size: int)
    requires size >= 1 && q * size >= 0
    ensures 0 <= q <= q * size
  {
    MulCancel(-1, q, size);
    MulMonotone(1, size, if q >= 1 then q else 1);
  }

  lemma QuotientBounds(n: nat, size: int)
    requires size >= 1
    ensures n / size * size <= n < n / size * size + size
    ensures 0 <= n / size <= n
  {
    var q, rest := n / size, n % size;
    assert n == q * size + rest && 0 <= rest < size;
    QuotientIsSmall(n, q, rest, size);
  }

  lemma QuotientIsSmall(n: nat, q: int, rest: int, size: int)
    requires size >= 1 && n == q * size + rest && 0 <= rest < size
    ensures 0 <= q <= n
  {
    assert (q + 1) * size == q * size + size;
    MulCancel(-1, q, size);
    NotAboveProduct(q, size);
  }

  /** The total is the number of pages needed, plus one exactly when the size divides the number of items. */
  lemma TotalPagesIsCeiling(total: nat, size: int, needed: nat)
    requires size >= 1 && total < INT_LIMIT - 1
    requires (needed - 1) * size < total <= needed * size
    ensures TotalPages(total, size) == if total % size == 0 then needed + 1 else needed
  {
    var q := total / size;
    QuotientBounds(total, size);
    WrapIsIdentity(q + 1);
    assert total == q * size + total % size;
    assert (q + 1) * size == q * size + size && (needed + 1) * size == needed * size + size;
    if total % size == 0 {
      MulCancel(needed - 1, q, size);
      MulCancel(q, needed + 1, size);
    } else {
      MulCancel(needed - 1, q + 1, size);
      MulCancel(q, needed, size);
    }
  }

  /** A page past the total is empty exactly when its offset does not wrap to a place before the end of the list. */
  lemma LaterPageEmptyExactlyWhen<T>(items: seq<T>, page: int, size: int)
    requires size >= 1 && |items| < INT_LIMIT - 1 && page > TotalPages(|items|, size) && IsInt(page)
    ensures page >= 1
    ensures Page(items, page, size) == Some([]) <==> Offset(page, size) >= |items|
    ensures IsInt((page - 1) * size) ==> Page(items, page, size) == Some([])
  {
    var q := |items| / size;
    QuotientBounds(|items|, size);
    WrapIsIdentity(q + 1);
    MulMonotone(q + 1, page - 1, size);
    assert (q + 1) * size == q * size + size;
    if IsInt((page - 1) * size) {
      OffsetIsExact(page, size);
    }
    PageIsEmptyOnlyPast(items, page, size);
  }

  lemma PageIsEmptyOnlyPast<T>(items: seq<T>, page: int, size: int)
    requires page >= 1 && size >= 1
    ensures Page(items, page, size) == Some([]) <==> Offset(page, size) >= |items|
  {
    var o := Offset(page, size);
    if 0 <= o < |items| {
      assert |items[o..if o + size <= |items| then o + size else |items|]| >= 1;
    }
  }

  /** A page size of 2^62 makes the offset of page 5 wrap to zero, so a page past the total shows the list again. */
  lemma LaterPageMayRepeat<T>(item: T)
    ensures TotalPages(1, 0x4000_0000_0000_0000) == 1
    ensures Page([item], 5, 0x4000_0000_0000_0000) == Some([item])
  {
    assert [item][0..1] == [item];
  }
}

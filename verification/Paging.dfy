// Offset paging: fetching one row more than the page size and trimming it.
module Paging {
  import opened Domain

  const MAX_I64 := 0x7FFF_FFFF_FFFF_FFFF

  function NormalizePage(page: int): Result<int> {
    if page < 1 then Err(Error.Validation) else Ok(page)
  }

  function NormalizePageSize(size: int): Result<int> {
    if 1 <= size <= 200 then Ok(size) else Err(Error.Validation)
  }

  function Min(a: nat, b: nat): nat {
    if a < b then a else b
  }

  function Offset(page: int, size: int): int {
    (page - 1) * size
  }

  lemma OffsetIsNat(page: int, size: int)
    requires page >= 1 && size >= 1
    ensures Offset(page, size) >= 0
    ensures Offset(page + 1, size) == Offset(page, size) + size
    ensures Offset(page, size) >= page - 1
  {
  }

  // LIMIT size + 1 OFFSET (page - 1) * size over a fixed ordered result.
  function Fetch<T>(rows: seq<T>, page: int, size: int): seq<T>
    requires page >= 1 && size >= 1
  {
    OffsetIsNat(page, size);
    var from := Min(Offset(page, size), |rows|);
    rows[from..Min(from + size + 1, |rows|)]
  }

  // The rows a caller sees of one page.
  function PageOf<T>(rows: seq<T>, page: int, size: int): seq<T>
    requires page >= 1 && size >= 1
  {
    var fetched := Fetch(rows, page, size);
    fetched[..Min(size, |fetched|)]
  }

  class Rows<T> {
    var items: seq<T>

    constructor (items: seq<T>)
      ensures this.items == items
    {
      this.items := items;
    }
  }

  method PageInfoFromExtraItem<T>(rows: Rows<T>, size: nat) returns (hasMore: bool)
    modifies rows
    ensures hasMore == (|old(rows.items)| > size)
    ensures rows.items == old(rows.items)[..Min(size, |old(rows.items)|)]
  {
    hasMore := |rows.items| > size;
    if hasMore {
      rows.items := rows.items[..size];
    }
  }

  // A page holds the rows from its offset on, and the extra row shows up exactly when rows remain
  // behind it.
  lemma PageIsSlice<T>(rows: seq<T>, page: int, size: int)
    requires page >= 1 && size >= 1
    ensures Offset(page, size) >= 0 && Offset(page + 1, size) >= 0
    ensures PageOf(rows, page, size) == rows[Min(Offset(page, size), |rows|)..Min(Offset(page + 1, size), |rows|)]
    ensures |Fetch(rows, page, size)| > size <==> Offset(page + 1, size) < |rows|
  {
    OffsetIsNat(page, size);
  }

  // What a caller collects who starts at `page` and goes on while has_more holds.
  function Collect<T>(rows: seq<T>, page: int, size: int): seq<T>
    requires page >= 1 && size >= 1
    decreases |rows| + 1 - page
  {
    OffsetIsNat(page + 1, size);
    PageIsSlice(rows, page, size);
    if |Fetch(rows, page, size)| > size
    then PageOf(rows, page, size) + Collect(rows, page + 1, size)
    else PageOf(rows, page, size)
  }

  lemma {:induction false} CollectIsRest<T>(rows: seq<T>, page: int, size: int)
    requires page >= 1 && size >= 1
    ensures Offset(page, size) >= 0
    ensures Collect(rows, page, size) == rows[Min(Offset(page, size), |rows|)..]
    decreases |rows| + 1 - page
  {
    OffsetIsNat(page, size);
    OffsetIsNat(page + 1, size);
    PageIsSlice(rows, page, size);
    if |Fetch(rows, page, size)| > size {
      CollectIsRest(rows, page + 1, size);
    }
  }

  // Following has_more from the first page ends, and visits every row once, in order.
  lemma FollowingHasMoreVisitsAll<T>(rows: seq<T>, size: int)
    requires size >= 1
    ensures Collect(rows, 1, size) == rows
  {
    CollectIsRest(rows, 1, size);
    assert rows[0..] == rows;
  }

  // A request is accepted with its i64 product (page - 1) * size in range exactly for these sizes
  // and pages; the service itself accepts every page from 1 on.
  lemma OffsetFitsExactly(page: int, size: int)
    ensures NormalizePage(page).Ok? && NormalizePageSize(size).Ok? && Offset(page, size) <= MAX_I64
            <==> 1 <= size <= 200 && 1 <= page && page - 1 <= MAX_I64 / size
  {
    if 1 <= size {
      var q := MAX_I64 / size;
      assert q * size <= MAX_I64 < (q + 1) * size;
      if page - 1 <= q {
        assert (page - 1) * size <= q * size;
      } else {
        assert (page - 1) * size >= (q + 1) * size;
      }
    }
  }
}

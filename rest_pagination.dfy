/**
 * Pagination helpers (pypaca/rest/pagination.py): checking the
 * `max_items_limit`/`handle_pagination` pair, and turning an iterator of
 * pages into the result the caller asked for.
 *
 * `PaginationType` is a `str` enum, so a mode is modelled as its string
 * value: the members compare equal to "none", "full" and "iterator", and any
 * other string is an invalid mode.
 */
module RestPagination {

  import opened PyValues
  import opened RestEnums

  const LIMIT_NEEDS_FULL := "max_items_limit can only be specified for PaginationType.FULL"

  /** `validate_pagination`: a missing mode means FULL; only FULL may carry a limit. */
  function ValidatePagination(maxItemsLimit: Option<int>, handlePagination: Option<string>): (r: Result<string>)
    ensures r.Failure? <==>
      maxItemsLimit.Some? && handlePagination.Some? && handlePagination.value != FULL.Value()
    ensures r.Failure? ==> r.error == ValueError(LIMIT_NEEDS_FULL)
    ensures r.Success? ==> r.value == (if handlePagination.None? then FULL.Value() else handlePagination.value)
  {
    var mode := if handlePagination.None? then FULL.Value() else handlePagination.value;
    if mode != FULL.Value() && maxItemsLimit.Some? then Failure(ValueError(LIMIT_NEEDS_FULL))
    else Success(mode)
  }

  /** The boundary cases: a limit of 0 is a limit, FULL takes any limit, no limit suits every mode. */
  lemma ValidatePaginationCases(limit: int, mode: string)
    ensures ValidatePagination(Some(limit), None) == Success("full")
    ensures ValidatePagination(Some(0), Some("none")).Failure?
    ensures ValidatePagination(Some(0), Some("iterator")).Failure?
    ensures ValidatePagination(Some(limit), Some("full")) == Success("full")
    ensures ValidatePagination(None, Some(mode)) == Success(mode)
  {
  }

  /** A validated mode is idempotent under re-validation with the same limit. */
  lemma ValidatePaginationIdempotent(maxItemsLimit: Option<int>, handlePagination: Option<string>)
    requires ValidatePagination(maxItemsLimit, handlePagination).Success?
    ensures var mode := ValidatePagination(maxItemsLimit, handlePagination).value;
      ValidatePagination(maxItemsLimit, Some(mode)) == Success(mode)
  {
  }

  /** `chain.from_iterable(pages)`: the pages' items, page after page. */
  function Flatten<T>(pages: seq<seq<T>>): seq<T> {
    if pages == [] then [] else Flatten(pages[..|pages| - 1]) + pages[|pages| - 1]
  }

  function TotalLength<T>(pages: seq<seq<T>>): nat {
    if pages == [] then 0 else TotalLength(pages[..|pages| - 1]) + |pages[|pages| - 1]|
  }

  /** Flattening is a homomorphism from page-list concatenation to item concatenation. */
  lemma {:induction false} FlattenAppend<T>(a: seq<seq<T>>, b: seq<seq<T>>)
    ensures Flatten(a + b) == Flatten(a) + Flatten(b)
    decreases |b|
  {
    if b == [] {
      assert a + b == a;
    } else {
      var b' := b[..|b| - 1];
      assert (a + b)[..|a + b| - 1] == a + b';
      assert (a + b)[|a + b| - 1] == b[|b| - 1];
      FlattenAppend(a, b');
    }
  }

  /** The flattened list is as long as all pages together. */
  lemma {:induction false} FlattenLength<T>(pages: seq<seq<T>>)
    ensures |Flatten(pages)| == TotalLength(pages)
  {
    if pages != [] {
      FlattenLength(pages[..|pages| - 1]);
    }
  }

  /** Nothing is lost or invented: an item is in the flattened list iff it is on some page. */
  lemma {:induction false} FlattenMembers<T>(pages: seq<seq<T>>, x: T)
    ensures x in Flatten(pages) <==> exists i :: 0 <= i < |pages| && x in pages[i]
  {
    if pages != [] {
      var init := pages[..|pages| - 1];
      FlattenMembers(init, x);
      if x in Flatten(pages) && x !in pages[|pages| - 1] {
        var i :| 0 <= i < |init| && x in init[i];
        assert pages[i] == init[i];
      }
      if exists i :: 0 <= i < |pages| && x in pages[i] {
        var i :| 0 <= i < |pages| && x in pages[i];
        if i < |pages| - 1 {
          assert init[i] == pages[i];
        }
      }
    }
  }

  /**
   * The page iterator handed to `return_paginated_result`: the pages it
   * would yield, and how many of them have been pulled.
   */
  class PageCursor<T> {
    const pages: seq<seq<T>>
    var pos: nat

    predicate Valid()
      reads this
    {
      pos <= |pages|
    }

    constructor(pages: seq<seq<T>>)
      ensures this.pages == pages && pos == 0 && Valid()
    {
      this.pages := pages;
      pos := 0;
    }

    /** The pages not yet pulled. */
    function Remaining(): seq<seq<T>>
      reads this
      requires Valid()
    {
      pages[pos..]
    }

    /** `next(iterator)`: the next page, or StopIteration once all are pulled. */
    method Next() returns (r: Result<seq<T>>)
      requires Valid()
      modifies this
      ensures Valid()
      ensures old(pos) < |pages| ==> r == Success(pages[old(pos)]) && pos == old(pos) + 1
      ensures old(pos) == |pages| ==> r == Failure(StopIteration) && pos == old(pos)
    {
      if pos == |pages| {
        return Failure(StopIteration);
      }
      r := Success(pages[pos]);
      pos := pos + 1;
    }
  }

  /** A list of items, or the iterator itself. */
  datatype Paginated<T> = Items(items: seq<T>) | Pages(cursor: PageCursor<T>)

  /** `list(chain.from_iterable(iterator))`: pull every remaining page. */
  method Drain<T>(it: PageCursor<T>) returns (items: seq<T>)
    requires it.Valid()
    modifies it
    ensures it.Valid() && it.pos == |it.pages|
    ensures items == Flatten(old(it.Remaining()))
  {
    ghost var start := it.pos;
    items := [];
    while true
      invariant it.Valid() && start <= it.pos
      invariant items == Flatten(it.pages[start..it.pos])
      decreases |it.pages| - it.pos
    {
      ghost var before := it.pos;
      var page := it.Next();
      if page.Failure? {
        assert it.pages[start..it.pos] == old(it.Remaining());
        return;
      }
      assert it.pages[start..it.pos] == it.pages[start..before] + [page.value];
      FlattenAppend(it.pages[start..before], [page.value]);
      assert Flatten([page.value]) == page.value by {
        assert [page.value][..0] == [];
      }
      items := items + page.value;
    }
  }

  /** `return_paginated_result`. */
  method ReturnPaginatedResult<T>(it: PageCursor<T>, handlePagination: string) returns (r: Result<Paginated<T>>)
    requires it.Valid()
    modifies it
    ensures it.Valid()
    ensures handlePagination == NONE.Value() ==>
      if old(it.pos) < |it.pages|
      then r == Success(Items(it.pages[old(it.pos)])) && it.pos == old(it.pos) + 1
      else r == Failure(StopIteration) && it.pos == old(it.pos)
    ensures handlePagination == FULL.Value() ==>
      r == Success(Items(Flatten(old(it.Remaining())))) && it.pos == |it.pages|
    ensures handlePagination == ITERATOR.Value() ==> r == Success(Pages(it)) && it.pos == old(it.pos)
    ensures PaginationTypeOf(handlePagination).None? ==>
      r == Failure(ValueError("Invalid pagination type: " + handlePagination + ".")) && it.pos == old(it.pos)
  {
    if handlePagination == NONE.Value() {
      var page := it.Next();
      return match page case Success(p) => Success(Items(p)) case Failure(e) => Failure(e);
    }
    if handlePagination == FULL.Value() {
      var items := Drain(it);
      return Success(Items(items));
    }
    if handlePagination == ITERATOR.Value() {
      return Success(Pages(it));
    }
    return Failure(ValueError("Invalid pagination type: " + handlePagination + "."));
  }
}

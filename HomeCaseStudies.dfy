/**
 * The home page's case-study carousel: the list fetched from the posts
 * endpoint, a start index moved by the "<" and ">" buttons, and a window of
 * four cards that wraps around to the start of the list (repeating cases
 * when there are fewer than four).
 */
module HomeCaseStudies {
  import opened Optional
  import opened Js

  /** How many cards the carousel shows at once. */
  const VisibleCount: nat := 4
  const FetchFailed: string := "Failed to fetch case studies"

  /** What the fetch of the case list produced: it threw, or a reply with `success` and the `data` array. */
  datatype CasesResponse =
    | Thrown
    | Reply(success: JsValue, data: seq<JsValue>)

  datatype Card = Card(title: JsValue, category: JsValue, description: JsValue)

  /** What the section renders. */
  datatype View =
    | Spinner
    | ErrorText(message: string)
    | NoCases
    | Cards(cards: seq<Card>)
      /** Rendering threw: a visible entry is `null` or `undefined`, so reading its `title` fails. */
    | Crashed

  /** The index after ">" on a list of `n` cases. */
  function NextIndex(i: nat, n: nat): (r: nat)
    requires i < n
    ensures r < n
    ensures r == if i + 1 == n then 0 else i + 1
  {
    (i + 1) % n
  }

  /** The index after "<" on a list of `n` cases. */
  function PrevIndex(i: nat, n: nat): (r: nat)
    requires i < n
    ensures r < n
    ensures r == if i == 0 then n - 1 else i - 1
  {
    (i - 1 + n) % n
  }

  /** "<" undoes ">". */
  lemma PrevAfterNext(i: nat, n: nat)
    requires i < n
    ensures PrevIndex(NextIndex(i, n), n) == i
  {
  }

  /** ">" undoes "<". */
  lemma NextAfterPrev(i: nat, n: nat)
    requires i < n
    ensures NextIndex(PrevIndex(i, n), n) == i
  {
  }

  /** The four cases shown from start index `i`: entry k is case (i + k) mod n. */
  function Window(cases: seq<JsValue>, i: nat): (w: seq<JsValue>)
    requires i < |cases|
    ensures |w| == VisibleCount
  {
    seq(VisibleCount, k requires 0 <= k < VisibleCount => cases[(i + k) % |cases|])
  }

  lemma MulNonneg(a: int, b: int)
    requires a >= 0 && b >= 0
    ensures a * b >= 0
  {
  }

  /** Quotient and remainder are the only ones with `x == q * n + r` and `0 <= r < n`. */
  lemma DivModUnique(x: int, n: int, q: int, r: int)
    requires n > 0 && 0 <= r < n && x == q * n + r
    ensures x % n == r && x / n == q
  {
    var q0, r0 := x / n, x % n;
    assert x == q0 * n + r0;
    var d := q - q0;
    assert d * n == r0 - r by {
      assert q * n - q0 * n == (q - q0) * n;
    }
    if d >= 1 {
      MulNonneg(d - 1, n);
      assert false;
    } else if d <= -1 {
      MulNonneg(-d - 1, n);
      assert false;
    }
  }

  /** Adding less than a full turn to a multiple of n gives the amount added. */
  lemma ModAfterTurn(a: nat, j: nat, n: nat)
    requires n > 0 && a % n == 0 && j < n
    ensures (a + j) % n == j
  {
    DivModUnique(a + j, n, a / n, j);
  }

  /** A full turn more gives the same remainder. */
  lemma ModFullTurn(a: nat, n: nat)
    requires n > 0
    ensures (a + n) % n == a % n
  {
    DivModUnique(a + n, n, a / n + 1, a % n);
  }

  /** When the window does not run past the end, it is the slice from the start index. */
  lemma WindowIsSlice(cases: seq<JsValue>, i: nat)
    requires i + VisibleCount <= |cases|
    ensures Window(cases, i) == cases[i..i + VisibleCount]
  {
    forall k | 0 <= k < VisibleCount
      ensures Window(cases, i)[k] == cases[i + k]
    {
      DivModUnique(i + k, |cases|, 0, i + k);
    }
  }

  /** ">" moves the window one case along: what was second is now first, and so on. */
  lemma NextShiftsWindow(cases: seq<JsValue>, i: nat, k: nat)
    requires i < |cases| && k + 1 < VisibleCount
    ensures Window(cases, NextIndex(i, |cases|))[k] == Window(cases, i)[k + 1]
  {
    var n := |cases|;
    if i + 1 == n {
      ModFullTurn(k, n);
      assert i + (k + 1) == k + n;
    }
  }

  /** The card shown for a case: a missing or empty field falls back to a fixed text. */
  function CardOf(c: JsValue): (r: Card)
    ensures Truthy(Get(c, "title")) ==> r.title == Get(c, "title")
    ensures !Truthy(Get(c, "title")) ==> r.title == Str("Untitled Case")
    ensures Truthy(Get(c, "category")) ==> r.category == Get(c, "category")
    ensures !Truthy(Get(c, "category")) ==> r.category == Str("General Law")
    ensures Truthy(Get(c, "description")) ==> r.description == Get(c, "description")
    ensures !Truthy(Get(c, "description")) ==> r.description == Str("No description available.")
    ensures Truthy(r.title) && Truthy(r.category) && Truthy(r.description)
  {
    Card(Or(Get(c, "title"), Str("Untitled Case")),
         Or(Get(c, "category"), Str("General Law")),
         Or(Get(c, "description"), Str("No description available.")))
  }

  /** `visible` is a prefix of the window from `i` (and no longer than it). */
  ghost predicate InWindow(cases: seq<JsValue>, i: nat, visible: seq<JsValue>)
    requires i < |cases|
  {
    |visible| <= VisibleCount && forall k :: 0 <= k < |visible| ==> visible[k] == cases[(i + k) % |cases|]
  }

  /** `cases.slice(i, i + 4)` is the start of the window, and it stops at the end of the list when shorter. */
  lemma FirstSliceInWindow(cases: seq<JsValue>, i: nat, end: nat)
    requires i < |cases| && end == (if i + VisibleCount < |cases| then i + VisibleCount else |cases|)
    ensures InWindow(cases, i, cases[i..end])
    ensures end - i < VisibleCount ==> (i + (end - i)) % |cases| == 0
  {
    var n := |cases|;
    forall k | 0 <= k < end - i
      ensures cases[i..end][k] == cases[(i + k) % n]
    {
      DivModUnique(i + k, n, 0, i + k);
    }
    if end - i < VisibleCount {
      DivModUnique(n, n, 1, 0);
    }
  }

  /** Pushing `cases.slice(0, take)` at a wrap-around point keeps `visible` within the window. */
  lemma PushStaysInWindow(cases: seq<JsValue>, i: nat, visible: seq<JsValue>, take: nat)
    requires i < |cases| && InWindow(cases, i, visible) && |visible| < VisibleCount
    requires (i + |visible|) % |cases| == 0
    requires take == if VisibleCount - |visible| < |cases| then VisibleCount - |visible| else |cases|
    ensures InWindow(cases, i, visible + cases[..take])
    ensures |visible + cases[..take]| < VisibleCount ==> (i + |visible + cases[..take]|) % |cases| == 0
  {
    var n := |cases|;
    var after := visible + cases[..take];
    forall k | |visible| <= k < |after|
      ensures after[k] == cases[(i + k) % n]
    {
      ModAfterTurn(i + |visible|, k - |visible|, n);
      assert i + k == i + |visible| + (k - |visible|);
    }
    if |after| < VisibleCount {
      ModFullTurn(i + |visible|, n);
    }
  }

  class Carousel {
    var index: nat
    var cases: seq<JsValue>
    var loading: bool
    var error: Option<string>

    /** The start index is a position in the list once there is one, and 0 before. */
    ghost predicate Valid()
      reads this
    {
      (cases == [] ==> index == 0) && (cases != [] ==> index < |cases|) && (loading ==> index == 0)
    }

    /** True when the cards and the two buttons are on screen. */
    predicate Showing()
      reads this
    {
      !loading && error.None? && cases != []
    }

    constructor ()
      ensures Valid()
      ensures index == 0 && cases == [] && loading && error == None
    {
      index := 0;
      cases := [];
      loading := true;
      error := None;
    }

    /** The mount effect's fetch completing. */
    method Load(response: CasesResponse)
      requires Valid() && loading
      modifies this
      ensures Valid() && !loading && index == 0
      ensures response.Thrown? ==> error == Some(FetchFailed) && cases == old(cases)
      ensures response.Reply? && Truthy(response.success) ==> cases == response.data && error == old(error)
      ensures response.Reply? && !Truthy(response.success) ==> error == Some(FetchFailed) && cases == old(cases)
    {
      match response {
        case Thrown =>
          error := Some(FetchFailed);
        case Reply(success, data) =>
          if Truthy(success) {
            cases := data;
          } else {
            error := Some(FetchFailed);
          }
      }
      loading := false;
    }

    /** The ">" button. */
    method Next()
      requires Valid() && Showing()
      modifies this`index
      ensures Valid() && Showing()
      ensures index == NextIndex(old(index), |cases|)
    {
      index := (index + 1) % |cases|;
    }

    /** The "<" button. */
    method Prev()
      requires Valid() && Showing()
      modifies this`index
      ensures Valid() && Showing()
      ensures index == PrevIndex(old(index), |cases|)
    {
      index := (index - 1 + |cases|) % |cases|;
    }

    /**
     * The visible cases: the slice from the start index, then copies of the
     * list's head pushed until there are four.
     */
    method VisibleCases() returns (visible: seq<JsValue>)
      requires Valid() && cases != []
      ensures visible == Window(cases, index)
    {
      var n := |cases|;
      var end := if index + VisibleCount < n then index + VisibleCount else n;
      visible := cases[index..end];
      FirstSliceInWindow(cases, index, end);
      while |visible| < VisibleCount
        invariant InWindow(cases, index, visible)
        invariant |visible| < VisibleCount ==> (index + |visible|) % n == 0
        decreases VisibleCount - |visible|
      {
        var take := if VisibleCount - |visible| < n then VisibleCount - |visible| else n;
        PushStaysInWindow(cases, index, visible, take);
        visible := visible + cases[..take];
      }
    }

    /** What the section renders in its current state. */
    method Render() returns (v: View)
      requires Valid()
      ensures loading ==> v == Spinner
      ensures !loading && error.Some? ==> v == ErrorText(error.value)
      ensures !loading && error.None? && cases == [] ==> v == NoCases
      ensures Showing() && (exists k :: 0 <= k < VisibleCount && Nullish(Window(cases, index)[k])) ==> v == Crashed
      ensures Showing() && (forall k :: 0 <= k < VisibleCount ==> !Nullish(Window(cases, index)[k])) ==>
        v.Cards? && |v.cards| == VisibleCount &&
        forall k :: 0 <= k < VisibleCount ==> v.cards[k] == CardOf(cases[(index + k) % |cases|])
    {
      if loading {
        return Spinner;
      }
      if error.Some? {
        return ErrorText(error.value);
      }
      if |cases| == 0 {
        return NoCases;
      }
      var visible := VisibleCases();
      if exists k :: 0 <= k < |visible| && Nullish(visible[k]) {
        return Crashed;
      }
      v := Cards(seq(|visible|, k requires 0 <= k < |visible| => CardOf(visible[k])));
    }
  }
}

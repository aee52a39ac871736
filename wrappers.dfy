/** Failure-carrying values shared by every module, and the null-filter that the
    TypeScript code writes as `xs.filter((x): x is T => x !== null)`. */
module Wrappers {

  datatype Option<T> = None | Some(value: T) {
    function GetOr(default: T): T {
      match this
      case Some(v) => v
      case None => default
    }
  }

  /** The outcome of a call that either yields a value or throws an `Error` with a message. */
  datatype Result<T> = Success(value: T) | Failure(error: string)

  /** The outcome of a call that yields nothing or throws. */
  datatype Outcome = Pass | Fail(error: string)

  /** JavaScript truthiness of an optional string: present and non-empty. */
  predicate Truthy(s: Option<string>) {
    s.Some? && s.value != ""
  }

  /** JavaScript `s || d` for an optional string. */
  function Or(s: Option<string>, d: string): string {
    if Truthy(s) then s.value else d
  }

  /** The non-null entries of `s`, in their original order. */
  function Present<T>(s: seq<Option<T>>): seq<T> {
    if s == [] then []
    else if s[0].Some? then [s[0].value] + Present(s[1..])
    else Present(s[1..])
  }

  /** Number of non-null entries of `s`. */
  function CountPresent<T>(s: seq<Option<T>>): nat {
    if s == [] then 0 else (if s[0].Some? then 1 else 0) + CountPresent(s[1..])
  }

  lemma {:induction false} PresentLength<T>(s: seq<Option<T>>)
    ensures |Present(s)| == CountPresent(s) <= |s|
    ensures |Present(s)| == |s| <==> forall i :: 0 <= i < |s| ==> s[i].Some?
  {
    if s != [] {
      PresentLength(s[1..]);
      if !s[0].Some? {
        assert !(forall i :: 0 <= i < |s| ==> s[i].Some?) by { assert !s[0].Some?; }
      } else {
        assert (forall i :: 0 <= i < |s| ==> s[i].Some?) <==>
               (forall i :: 0 <= i < |s[1..]| ==> s[1..][i].Some?) by {
          if forall i :: 0 <= i < |s[1..]| ==> s[1..][i].Some? {
            forall i | 0 <= i < |s| ensures s[i].Some? {
              if i > 0 { assert s[i] == s[1..][i - 1]; }
            }
          }
        }
      }
    }
  }

  /** A value is kept exactly when some entry of the input holds it. */
  lemma {:induction false} PresentMembers<T>(s: seq<Option<T>>, x: T)
    ensures x in Present(s) <==> Some(x) in s
  {
    if s != [] {
      PresentMembers(s[1..], x);
      assert s == [s[0]] + s[1..];
    }
  }

  /** When every entry is present, filtering loses nothing and keeps the order. */
  lemma {:induction false} PresentAll<T>(s: seq<Option<T>>)
    requires forall i :: 0 <= i < |s| ==> s[i].Some?
    ensures |Present(s)| == |s|
    ensures forall i :: 0 <= i < |s| ==> Present(s)[i] == s[i].value
  {
    if s != [] {
      PresentAll(s[1..]);
      forall i | 0 <= i < |s| ensures Present(s)[i] == s[i].value {
        if i > 0 {
          assert s[i] == s[1..][i - 1];
        }
      }
    }
  }

  /** Filtering a concatenation filters each part. */
  lemma {:induction false} PresentConcat<T>(a: seq<Option<T>>, b: seq<Option<T>>)
    ensures Present(a + b) == Present(a) + Present(b)
  {
    if a == [] {
      assert a + b == b;
    } else {
      assert (a + b)[1..] == a[1..] + b;
      PresentConcat(a[1..], b);
    }
  }

  /** The filter keeps the order: the value at position k comes right after the values kept
      from the entries before k. */
  lemma PresentAt<T>(s: seq<Option<T>>, k: nat)
    requires k < |s| && s[k].Some?
    ensures CountPresent(s[..k]) < |Present(s)|
    ensures Present(s)[CountPresent(s[..k])] == s[k].value
  {
    assert s == s[..k] + [s[k]] + s[k + 1..];
    PresentConcat(s[..k] + [s[k]], s[k + 1..]);
    PresentConcat(s[..k], [s[k]]);
    PresentLength(s[..k]);
    assert Present([s[k]]) == [s[k].value] by {
      assert [s[k]][1..] == [];
    }
  }

  /** `s.slice(0, n)`: the first `n` entries, or all of them when there are fewer. */
  function Take<T>(s: seq<T>, n: nat): seq<T> {
    if |s| <= n then s else s[..n]
  }

  /** `Promise.all(xs.map(f))` taken in list order: every result, or the first error. */
  function All<A, B>(xs: seq<A>, f: A -> Result<B>): Result<seq<B>> {
    if xs == [] then Success([])
    else
      match All(xs[..|xs| - 1], f)
      case Failure(e) => Failure(e)
      case Success(ys) =>
        match f(xs[|xs| - 1])
        case Failure(e) => Failure(e)
        case Success(y) => Success(ys + [y])
  }

  /** All calls succeed exactly when each does, and then result k is call k's value. */
  lemma {:induction false} AllSuccess<A, B>(xs: seq<A>, f: A -> Result<B>)
    ensures All(xs, f).Success? <==> forall k :: 0 <= k < |xs| ==> f(xs[k]).Success?
    ensures All(xs, f).Success? ==>
      && |All(xs, f).value| == |xs|
      && forall k :: 0 <= k < |xs| ==> All(xs, f).value[k] == f(xs[k]).value
  {
    if xs != [] {
      var init := xs[..|xs| - 1];
      AllSuccess(init, f);
      assert forall k :: 0 <= k < |init| ==> init[k] == xs[k];
    }
  }

  /** A failure carries the error of the first call that failed. */
  lemma {:induction false} AllFailure<A, B>(xs: seq<A>, f: A -> Result<B>)
    requires All(xs, f).Failure?
    ensures exists k :: 0 <= k < |xs| && f(xs[k]) == Failure(All(xs, f).error) &&
              forall j :: 0 <= j < k ==> f(xs[j]).Success?
  {
    var init := xs[..|xs| - 1];
    if All(init, f).Failure? {
      AllFailure(init, f);
      var k :| 0 <= k < |init| && f(init[k]) == Failure(All(init, f).error) &&
               forall j :: 0 <= j < k ==> f(init[j]).Success?;
      assert forall j :: 0 <= j <= k ==> init[j] == xs[j];
    } else {
      AllSuccess(init, f);
      assert forall j :: 0 <= j < |init| ==> init[j] == xs[j];
    }
  }

  /** `s.filter((_, i) => i !== index)`, scanning from position `from`. */
  function WithoutIndexFrom<T>(s: seq<T>, index: int, from: int): seq<T> {
    if s == [] then []
    else (if from == index then [] else [s[0]]) + WithoutIndexFrom(s[1..], index, from + 1)
  }

  function WithoutIndex<T>(s: seq<T>, index: int): seq<T> {
    WithoutIndexFrom(s, index, 0)
  }

  lemma {:induction false} WithoutIndexFromSlices<T>(s: seq<T>, index: int, from: int)
    ensures WithoutIndexFrom(s, index, from) ==
      if from <= index < from + |s| then s[..index - from] + s[index - from + 1..] else s
  {
    if s != [] {
      WithoutIndexFromSlices(s[1..], index, from + 1);
      if from < index < from + |s| {
        assert s[..index - from] == [s[0]] + s[1..][..index - from - 1];
        assert s[index - from + 1..] == s[1..][index - from..];
      }
    }
  }

  /** The filter drops exactly the entry at `index` and keeps the rest in order; an index
      outside the list drops nothing. */
  lemma WithoutIndexMeaning<T>(s: seq<T>, index: int)
    ensures 0 <= index < |s| ==>
      WithoutIndex(s, index) == s[..index] + s[index + 1..] && |WithoutIndex(s, index)| == |s| - 1
    ensures !(0 <= index < |s|) ==> WithoutIndex(s, index) == s
  {
    WithoutIndexFromSlices(s, index, 0);
  }
}

/** Scoped ownership of native handles: the `PtrWrapper` guards of
    `run_demo`. A guard is made once its handle exists and releases it when
    the guard goes out of scope; Rust drops the guards of one scope newest
    first, on every way out of the scope. */
module Guards {
  import opened Sdk

  /** The native resource a guard owns and the release call it makes:
      `tobii_api_destroy`, `tobii_device_destroy`, or the unsubscribe call
      of the stream. */
  datatype Handle = Api | Device | Subscription(stream: Stream)

  /** `s` back to front. */
  function Reversed<T>(s: seq<T>): (r: seq<T>)
    ensures |r| == |s|
    ensures forall k :: 0 <= k < |s| ==> r[k] == s[|s| - 1 - k]
  {
    if s == [] then [] else [s[|s| - 1]] + Reversed(s[..|s| - 1])
  }

  predicate NoDuplicates<T(==)>(s: seq<T>)
  {
    forall i, j :: 0 <= i < j < |s| ==> s[i] != s[j]
  }

  /** Reversing keeps the elements and their multiplicities. */
  lemma {:induction false} ReversedMultiset<T>(s: seq<T>)
    ensures multiset(Reversed(s)) == multiset(s)
    decreases |s|
  {
    if s != [] {
      var init := s[..|s| - 1];
      ReversedMultiset(init);
      assert s == init + [s[|s| - 1]];
      assert Reversed(s) == [s[|s| - 1]] + Reversed(init);
    }
  }

  lemma ReversedCons<T>(x: T, s: seq<T>)
    ensures Reversed([x] + s) == Reversed(s) + [x]
  {
    var r, q := Reversed([x] + s), Reversed(s) + [x];
    assert |r| == |q|;
    forall k | 0 <= k < |r| ensures r[k] == q[k] {
      if k < |s| {
        assert r[k] == ([x] + s)[|s| - k];
      }
    }
  }

  lemma NoDuplicatesAppend<T>(s: seq<T>, x: T)
    requires NoDuplicates(s) && x !in s
    ensures NoDuplicates(s + [x])
  {
  }

  /** In a sequence without duplicates every element occurs exactly once. */
  lemma {:induction false} NoDuplicatesOccursOnce<T>(s: seq<T>, x: T)
    requires NoDuplicates(s)
    ensures multiset(s)[x] == if x in s then 1 else 0
    decreases |s|
  {
    if s != [] {
      var init := s[..|s| - 1];
      assert s == init + [s[|s| - 1]];
      assert NoDuplicates(init);
      NoDuplicatesOccursOnce(init, x);
      assert s[|s| - 1] !in init;
    }
  }

  /** The streams of the subscription guards in `hs`, in order. */
  function GuardStreams(hs: seq<Handle>): (streams: seq<Stream>)
    ensures |streams| <= |hs|
  {
    if hs == [] then []
    else
      var last := hs[|hs| - 1];
      GuardStreams(hs[..|hs| - 1]) + (if last.Subscription? then [last.stream] else [])
  }

  lemma {:induction false} GuardStreamsAppend(a: seq<Handle>, b: seq<Handle>)
    ensures GuardStreams(a + b) == GuardStreams(a) + GuardStreams(b)
    decreases |b|
  {
    if b == [] {
      assert a + b == a;
    } else {
      var b' := b[..|b| - 1];
      assert (a + b)[..|a + b| - 1] == a + b';
      assert (a + b)[|a + b| - 1] == b[|b| - 1];
      GuardStreamsAppend(a, b');
    }
  }

  /** Guards that own no subscription name no stream. */
  lemma {:induction false} GuardStreamsNone(hs: seq<Handle>)
    requires forall h :: h in hs ==> !h.Subscription?
    ensures GuardStreams(hs) == []
    decreases |hs|
  {
    if hs != [] {
      GuardStreamsNone(hs[..|hs| - 1]);
    }
  }

  /** The guards alive in one scope of `run_demo` and the release calls
      they have made. */
  class GuardStack {
    /** Guards in scope, oldest first. */
    var live: seq<Handle>
    /** Release calls made so far, in the order they were made. */
    var released: seq<Handle>

    /** Each handle is owned by at most one guard, is released at most once,
        and is not owned any more once released. */
    ghost predicate Valid()
      reads this
    {
      && NoDuplicates(live)
      && NoDuplicates(released)
      && forall h :: h in live ==> h !in released
    }

    constructor ()
      ensures Valid() && live == [] && released == []
    {
      live := [];
      released := [];
    }

    /** `PtrWrapper::new`: a guard takes ownership of a handle. */
    method Push(h: Handle)
      requires Valid()
      requires h !in live && h !in released
      modifies this
      ensures Valid()
      ensures live == old(live) + [h] && released == old(released)
    {
      live := live + [h];
    }

    /** Scope exit: every guard in scope is dropped, newest first, and makes
        its release call. */
    method ReleaseAll()
      requires Valid()
      modifies this
      ensures Valid()
      ensures live == [] && released == old(released) + Reversed(old(live))
    {
      while live != []
        invariant Valid()
        invariant |live| <= |old(live)| && live == old(live)[..|live|]
        invariant released == old(released) + Reversed(old(live)[|live|..])
        decreases |live|
      {
        var n := |live| - 1;
        var h := live[n];
        ReversedCons(h, old(live)[n + 1..]);
        assert old(live)[n..] == [h] + old(live)[n + 1..];
        assert h in live;
        NoDuplicatesAppend(released, h);
        live := live[..n];
        released := released + [h];
      }
    }
  }
}

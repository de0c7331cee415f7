/**
 * Stream-handle bookkeeping shared by the two streaming cursors. A cursor
 * holds at most one handle (its stream_id, 0 for none); xFilter may replace
 * it and xClose releases it. The run functions below follow one cursor's
 * lifetime and collect the handles it was issued and the handles it released.
 */
module StreamHandles {
  import opened Wrappers

  /** The handle a cursor holds, as a multiset: empty for stream_id 0. */
  function Owned(id: nat): multiset<nat>
  {
    if id > 0 then multiset{id} else multiset{}
  }

  /** One call of a streaming cursor, as far as stream handles go. */
  datatype Call =
    | Filter(init: Option<nat>)  // xFilter; Some(id) when it called the initialiser and got id
    | Close                      // xClose

  /**
   * The handle held after one call. As written, xFilter simply overwrites the
   * field; the corrected xFilter releases the old handle first, so it holds
   * nothing when it returns before initialising a new stream.
   */
  function HeldAfter(h: nat, c: Call, corrected: bool): nat
  {
    match c
    case Filter(Some(id)) => id
    case Filter(None) => if corrected then 0 else h
    case Close => 0
  }

  /** The handles released by one call. */
  function ReleasedBy(h: nat, c: Call, corrected: bool): multiset<nat>
  {
    if c.Close? || corrected then Owned(h) else multiset{}
  }

  /** The handles a sequence of calls is issued, with multiplicity. */
  function Issued(calls: seq<Call>): multiset<nat>
  {
    if |calls| == 0 then multiset{}
    else (match calls[0] case Filter(Some(id)) => Owned(id) case _ => multiset{}) + Issued(calls[1..])
  }

  /** The handles released over a sequence of calls, starting from held handle h. */
  function Released(h: nat, calls: seq<Call>, corrected: bool): multiset<nat>
    decreases |calls|
  {
    if |calls| == 0 then multiset{}
    else ReleasedBy(h, calls[0], corrected) + Released(HeldAfter(h, calls[0], corrected), calls[1..], corrected)
  }

  /** The handle held at the end of a sequence of calls. */
  function Held(h: nat, calls: seq<Call>, corrected: bool): nat
    decreases |calls|
  {
    if |calls| == 0 then h else Held(HeldAfter(h, calls[0], corrected), calls[1..], corrected)
  }

  /**
   * The positive ids the collaborator hands out are strictly increasing; a
   * failed start (id 0) may come anywhere.
   */
  ghost predicate FreshIds(calls: seq<Call>)
  {
    forall i, j :: 0 <= i < j < |calls| && calls[i].Filter? && calls[j].Filter?
      && calls[i].init.Some? && calls[j].init.Some? && calls[i].init.value > 0
      && calls[j].init.value > 0
      ==> calls[i].init.value < calls[j].init.value
  }

  /**
   * Corrected cursors lose no handle and release none twice: at every point, the
   * handles released plus the one still held are exactly the ones issued.
   */
  lemma {:induction false} CorrectedConservesHandles(h: nat, calls: seq<Call>)
    ensures Released(h, calls, true) + Owned(Held(h, calls, true)) == Owned(h) + Issued(calls)
    decreases |calls|
  {
    if |calls| > 0 {
      CorrectedConservesHandles(HeldAfter(h, calls[0], true), calls[1..]);
    }
  }

  /** Fresh ids are issued at most once each. */
  lemma {:induction false} FreshIdsIssuedOnce(calls: seq<Call>, id: nat)
    requires FreshIds(calls)
    ensures Issued(calls)[id] <= 1
  {
    if |calls| > 0 {
      assert FreshIds(calls[1..]);
      FreshIdsIssuedOnce(calls[1..], id);
      if calls[0].Filter? && calls[0].init.Some? && calls[0].init.value == id && id > 0 {
        FreshIdsAfterFirst(calls, id);
      }
    }
  }

  /** A fresh id issued by the first call is not issued again. */
  lemma {:induction false} FreshIdsAfterFirst(calls: seq<Call>, id: nat)
    requires FreshIds(calls) && |calls| > 0 && calls[0] == Filter(Some(id)) && id > 0
    ensures id !in Issued(calls[1..])
  {
    forall k | 1 <= k < |calls| && calls[k].Filter? && calls[k].init.Some? && calls[k].init.value > 0
      ensures calls[k].init.value > id
    {
    }
    NotIssuedIfAllLarger(calls[1..], id);
  }

  lemma {:induction false} NotIssuedIfAllLarger(calls: seq<Call>, id: nat)
    requires id > 0
    requires forall k :: 0 <= k < |calls| && calls[k].Filter? && calls[k].init.Some? && calls[k].init.value > 0
               ==> calls[k].init.value > id
    ensures id !in Issued(calls)
  {
    if |calls| > 0 {
      NotIssuedIfAllLarger(calls[1..], id);
    }
  }

  /**
   * A corrected cursor that is closed at the end of its life releases every
   * handle it was issued exactly once.
   */
  lemma CorrectedReleasesEachHandleOnce(calls: seq<Call>, id: nat)
    requires FreshIds(calls) && id > 0 && id in Issued(calls)
    ensures Released(0, calls + [Close], true)[id] == 1
  {
    CorrectedConservesHandles(0, calls + [Close]);
    IssuedClosed(calls);
    HeldClosed(0, calls, true);
    var released := Released(0, calls + [Close], true);
    assert released + Owned(Held(0, calls + [Close], true)) == Owned(0) + Issued(calls + [Close]);
    assert Owned(Held(0, calls + [Close], true)) == multiset{};
    assert Owned(0) == multiset{};
    assert (released + multiset{})[id] == (multiset{} + Issued(calls))[id];
    FreshIdsIssuedOnce(calls, id);
  }

  lemma {:induction false} IssuedClosed(calls: seq<Call>)
    ensures Issued(calls + [Close]) == Issued(calls)
  {
    if |calls| > 0 {
      assert (calls + [Close])[1..] == calls[1..] + [Close];
      IssuedClosed(calls[1..]);
    }
  }

  lemma {:induction false} HeldClosed(h: nat, calls: seq<Call>, corrected: bool)
    ensures Held(h, calls + [Close], corrected) == 0
    decreases |calls|
  {
    if |calls| > 0 {
      assert (calls + [Close])[1..] == calls[1..] + [Close];
      HeldClosed(HeldAfter(h, calls[0], corrected), calls[1..], corrected);
    }
  }

  /**
   * As written, a second xFilter on the same cursor drops the first stream
   * without releasing it: issued {1, 2}, released {2}.
   */
  lemma RefilterLeaksAsWritten()
    ensures var calls := [Filter(Some(1)), Filter(Some(2)), Close];
            Issued(calls) == multiset{1, 2} && Released(0, calls, false) == multiset{2}
  {
    var calls := [Filter(Some(1)), Filter(Some(2)), Close];
    assert calls[1..] == [Filter(Some(2)), Close];
    assert calls[1..][1..] == [Close];
  }
}

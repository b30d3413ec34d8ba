/**
 * Sequences of calls to the two getters of the Spoolman client, and what they do
 * to the client's state as a whole: how many pulls they cause, which cache entries
 * they add, and which properties of the cached entity graph they keep.
 */
module Sessions {
  import opened Wrappers
  import opened StdMap
  import opened Slic3r

  /** One call of a public getter. */
  datatype Call =
    | ListSpools(update: bool)              // get_spoolman_spools(update)
    | ById(id: int, update: bool)           // get_spoolman_spool_by_id(id, update)

  /** The state after one call; `o` is what the server answers should the call pull. */
  function Apply(s: ClientState, c: Call, o: PullOutcome): ClientState
  {
    match c
    case ListSpools(update) => Refresh(s, update, o)
    case ById(id, update) => SpoolById(s, id, update, o).state
  }

  /** The state after a sequence of calls; `outs[i]` is offered to `calls[i]`. */
  function Run(s: ClientState, calls: seq<Call>, outs: seq<PullOutcome>): ClientState
    requires |outs| == |calls|
    decreases |calls|
  {
    if calls == [] then s else Run(Apply(s, calls[0], outs[0]), calls[1..], outs[1..])
  }

  /** Number of calls that ask for an update. */
  function Forced(calls: seq<Call>): nat
  {
    if calls == [] then 0 else (if calls[0].update then 1 else 0) + Forced(calls[1..])
  }

  /** The ids the calls look up. */
  function Requested(calls: seq<Call>): set<int>
  {
    if calls == [] then {} else (if calls[0].ById? then {calls[0].id} else {}) + Requested(calls[1..])
  }

  /** Every call pulls at most once, and every forced call pulls exactly once. */
  lemma {:induction false} PullsBounded(s: ClientState, calls: seq<Call>, outs: seq<PullOutcome>)
    requires |outs| == |calls|
    ensures s.pulls + Forced(calls) <= Run(s, calls, outs).pulls <= s.pulls + |calls|
    decreases |calls|
  {
    if calls != [] {
      PullsBounded(Apply(s, calls[0], outs[0]), calls[1..], outs[1..]);
    }
  }

  /**
   * `after` is `before` plus a null entry for each id of `ids` that `before` did not
   * hold; every entry of `before` is untouched.
   */
  predicate OnlyNullsAdded(before: Cache<Spool>, after: Cache<Spool>, ids: set<int>)
  {
    && after.Keys == before.Keys + ids
    && (forall k :: k in before ==> after[k] == before[k])
    && (forall k :: k in after && k !in before ==> after[k] == None)
  }

  lemma NullsAddedTransitive(a: Cache<Spool>, b: Cache<Spool>, c: Cache<Spool>, i: set<int>, j: set<int>)
    requires OnlyNullsAdded(a, b, i) && OnlyNullsAdded(b, c, j)
    ensures OnlyNullsAdded(a, c, i + j)
  {
  }

  /** One call that does not ask for an update, on an initialised client. */
  lemma CachedCall(s: ClientState, c: Call, o: PullOutcome)
    requires s.initialized && !c.update
    ensures var t := Apply(s, c, o);
      && t.pulls == s.pulls && t.initialized
      && t.vendors == s.vendors && t.filaments == s.filaments
      && OnlyNullsAdded(s.spools, t.spools, if c.ById? then {c.id} else {})
  {
  }

  /**
   * On an initialised client, calls that do not ask for an update never pull: the flag
   * and the vendor and filament caches stay as they are, and the spool cache only gains
   * null entries, one for each requested id it did not hold.
   */
  lemma {:induction false} CachedSessionNeverPulls(s: ClientState, calls: seq<Call>, outs: seq<PullOutcome>)
    requires |outs| == |calls|
    requires s.initialized
    requires forall i :: 0 <= i < |calls| ==> !calls[i].update
    ensures var r := Run(s, calls, outs);
      && r.pulls == s.pulls && r.initialized
      && r.vendors == s.vendors && r.filaments == s.filaments
      && OnlyNullsAdded(s.spools, r.spools, Requested(calls))
    decreases |calls|
  {
    if calls == [] {
      assert Run(s, calls, outs) == s;
    } else {
      var t := Apply(s, calls[0], outs[0]);
      var here := if calls[0].ById? then {calls[0].id} else {};
      CachedCall(s, calls[0], outs[0]);
      assert forall i :: 0 <= i < |calls[1..]| ==> !calls[1..][i].update by {
        forall i | 0 <= i < |calls[1..]| ensures !calls[1..][i].update {
          assert calls[1..][i] == calls[i + 1];
        }
      }
      CachedSessionNeverPulls(t, calls[1..], outs[1..]);
      var r := Run(t, calls[1..], outs[1..]);
      assert Run(s, calls, outs) == r;
      assert Requested(calls) == here + Requested(calls[1..]);
      NullsAddedTransitive(s.spools, t.spools, r.spools, here, Requested(calls[1..]));
    }
  }

  /**
   * A client that has not been initialised pulls on every call for as long as the
   * server keeps failing, whether or not the calls ask for an update.
   */
  lemma {:induction false} FailingServerPullsEveryCall(s: ClientState, calls: seq<Call>, outs: seq<PullOutcome>)
    requires |outs| == |calls|
    requires !s.initialized
    requires forall i :: 0 <= i < |outs| ==> !outs[i].ok
    ensures Run(s, calls, outs).pulls == s.pulls + |calls|
    ensures !Run(s, calls, outs).initialized
    decreases |calls|
  {
    if calls != [] {
      FailingServerPullsEveryCall(Apply(s, calls[0], outs[0]), calls[1..], outs[1..]);
    }
  }

  /** Every pull leaves a linked entity graph (whether or not it reports success). */
  predicate AllLinked(outs: seq<PullOutcome>)
  {
    forall i :: 0 <= i < |outs| ==> Linked(outs[i].vendors, outs[i].filaments, outs[i].spools)
  }

  /** One call keeps the cached graph linked, provided the pull it may run leaves it linked. */
  lemma ApplyKeepsLinked(s: ClientState, c: Call, o: PullOutcome)
    requires Linked(s.vendors, s.filaments, s.spools)
    requires Linked(o.vendors, o.filaments, o.spools)
    ensures var r := Apply(s, c, o); Linked(r.vendors, r.filaments, r.spools)
  {
    var t := Refresh(s, c.update, o);
    assert Linked(t.vendors, t.filaments, t.spools);
    if c.ById? {
      var r := SpoolById(s, c.id, c.update, o).state;
      assert forall k :: k in r.spools && r.spools[k].Some? ==> k in t.spools && r.spools[k] == t.spools[k];
    }
  }

  /**
   * The null entries that lookups insert never leave a dangling reference: if the
   * graph starts linked and every pull leaves it linked, it is linked after any calls.
   */
  lemma {:induction false} RunKeepsLinked(s: ClientState, calls: seq<Call>, outs: seq<PullOutcome>)
    requires |outs| == |calls|
    requires Linked(s.vendors, s.filaments, s.spools)
    requires AllLinked(outs)
    ensures var r := Run(s, calls, outs); Linked(r.vendors, r.filaments, r.spools)
    decreases |calls|
  {
    if calls != [] {
      ApplyKeepsLinked(s, calls[0], outs[0]);
      RunKeepsLinked(Apply(s, calls[0], outs[0]), calls[1..], outs[1..]);
    }
  }

  /**
   * Looking up a spool right after a pull that included it yields that spool, whose
   * id is the one asked for when the pull left a linked graph.
   */
  lemma LookupAfterPull(s: ClientState, id: int, o: PullOutcome)
    requires Linked(o.vendors, o.filaments, o.spools)
    requires id in o.spools && o.spools[id].Some?
    ensures var r := SpoolById(s, id, true, o);
      r.spool == o.spools[id] && r.spool.value.id == id && r.state.spools == o.spools
  {
  }
}

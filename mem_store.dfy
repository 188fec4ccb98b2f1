/**
 * The in-memory event log `memStore` (mem_store.go): a table from the key
 * `ID+Type` to the aggregate's stored batch, updated in place by `Append`
 * and `Copy`.
 */
module EsMemStore {
  import opened Wrappers
  import opened Es

  /** The table key: the plain concatenation of id and type, with no separator. */
  function Key(a: Aggregate): string
  {
    a.id + a.typ
  }

  /** The message of the runtime panic raised by `a.Events[len(a.Events)-1]` on an empty entry. */
  const IndexOutOfRange: string := "runtime error: index out of range [-1]"

  /** Versions 1, 2, ..., |evs| in order: no gap, no duplicate. */
  ghost predicate Contiguous(evs: seq<Event>)
  {
    forall i :: 0 <= i < |evs| ==> evs[i].version == i + 1
  }

  /** Every stored entry is contiguous. */
  ghost predicate ContiguousTable(table: map<string, AggregateEvents>)
  {
    forall k :: k in table ==> Contiguous(table[k].events)
  }

  /** The same event with its version set. */
  function WithVersion(e: Event, v: nat): Event
  {
    e.(version := v)
  }

  /** `evs` numbered last+1, last+2, ... in order, every other field kept. */
  function Stamped(evs: seq<Event>, last: nat): (r: seq<Event>)
    ensures |r| == |evs|
    ensures forall i :: 0 <= i < |evs| ==> r[i] == WithVersion(evs[i], last + i + 1)
  {
    seq(|evs|, i requires 0 <= i < |evs| => WithVersion(evs[i], last + i + 1))
  }

  /** The version of the last stored event. */
  function LastVersion(evs: seq<Event>): nat
    requires |evs| > 0
  {
    evs[|evs| - 1].version
  }

  /**
   * The effect of one `Append`: the new table, the returned error and the
   * batch's events as written back into the caller's slice.
   */
  datatype AppendOutcome = AppendOutcome(table: map<string, AggregateEvents>, err: Option<string>, written: seq<Event>)

  /** What `Append(ae, v)` does to `table`, for any `v`. */
  function Appended(table: map<string, AggregateEvents>, ae: AggregateEvents): AppendOutcome
  {
    var k := Key(ae.aggregate);
    if k in table then
      var a := table[k];
      if |a.events| == 0 then
        AppendOutcome(table, Some(IndexOutOfRange), ae.events)
      else
        var w := Stamped(ae.events, LastVersion(a.events));
        AppendOutcome(table[k := a.(events := a.events + w)], None, w)
    else
      var w := Stamped(ae.events, 0);
      AppendOutcome(table[k := ae.(events := w)], None, w)
  }

  /** The zero value `AggregateEvents{}`: empty id and type, no events. */
  const Zero: AggregateEvents := AggregateEvents(Aggregate("", ""), [])

  /** What `FromVersion(a, 0)` reads: the stored batch, or the zero batch. */
  function History(table: map<string, AggregateEvents>, a: Aggregate): AggregateEvents
  {
    if Key(a) in table then table[Key(a)] else Zero
  }

  /** The events of `evs` with version at least `after`, in order. */
  function Since(evs: seq<Event>, after: nat): seq<Event>
  {
    if evs == [] then []
    else Since(evs[..|evs| - 1], after)
         + (if evs[|evs| - 1].version < after then [] else [evs[|evs| - 1]])
  }

  /** The batch `Copy` builds: the filtered source events under the destination id. */
  function CopyBatch(source: AggregateEvents, after: nat, dst: string): AggregateEvents
  {
    AggregateEvents(Aggregate(dst, source.aggregate.typ), Since(source.events, after))
  }

  /** The error `Copy` returns when the source is missing. */
  function SourceNotFound(aggregate: string, src: string): string
  {
    aggregate + ":" + src + " source not found"
  }

  /** What `Copy(aggregate, src, after, dst)` does to `table`. */
  function Copied(table: map<string, AggregateEvents>, aggregate: string, src: string, after: nat, dst: string): AppendOutcome
  {
    if src + aggregate !in table then AppendOutcome(table, Some(SourceNotFound(aggregate, src)), [])
    else Appended(table, CopyBatch(table[src + aggregate], after, dst))
  }

  // ---------------------------------------------------------------- lemmas

  /** A new aggregate stores its batch in order, numbered 1..k, and the call succeeds. */
  lemma AppendToNew(table: map<string, AggregateEvents>, ae: AggregateEvents)
    requires Key(ae.aggregate) !in table
    ensures var o := Appended(table, ae);
      && o.err == None
      && o.table[Key(ae.aggregate)] == AggregateEvents(ae.aggregate, o.written)
      && |o.written| == |ae.events|
      && Contiguous(o.written)
      && forall i :: 0 <= i < |ae.events| ==> o.written[i].(version := 0) == ae.events[i].(version := 0)
  {
  }

  /**
   * An existing, contiguous, non-empty aggregate keeps its stored events
   * first and unchanged; the new ones follow, numbered from last+1.
   */
  lemma AppendToExisting(table: map<string, AggregateEvents>, ae: AggregateEvents)
    requires Key(ae.aggregate) in table && |table[Key(ae.aggregate)].events| > 0
    ensures var k := Key(ae.aggregate); var old_ := table[k].events; var o := Appended(table, ae);
      && o.err == None
      && o.table[k].aggregate == table[k].aggregate
      && o.table[k].events[..|old_|] == old_
      && o.table[k].events[|old_|..] == o.written
      && |o.written| == |ae.events|
      && forall i :: 0 <= i < |ae.events| ==>
           o.written[i] == ae.events[i].(version := LastVersion(old_) + i + 1)
  {
    var k := Key(ae.aggregate);
    var o := Appended(table, ae);
    assert o.table[k].events == table[k].events + o.written;
  }

  /** An aggregate stored with no events makes every later `Append` fail, changing nothing. */
  lemma AppendToEmptyEntryFails(table: map<string, AggregateEvents>, ae: AggregateEvents)
    requires Key(ae.aggregate) in table && table[Key(ae.aggregate)].events == []
    ensures Appended(table, ae).err == Some(IndexOutOfRange)
    ensures Appended(table, ae).table == table
  {
  }

  /** Only the entry under `ID+Type` changes; every other key keeps its entry. */
  lemma AppendedFrame(table: map<string, AggregateEvents>, ae: AggregateEvents, k: string)
    requires k != Key(ae.aggregate)
    ensures k in Appended(table, ae).table <==> k in table
    ensures k in table ==> Appended(table, ae).table[k] == table[k]
  {
  }

  /** `Append` keeps every entry contiguous. */
  lemma AppendedContiguous(table: map<string, AggregateEvents>, ae: AggregateEvents)
    requires ContiguousTable(table)
    ensures ContiguousTable(Appended(table, ae).table)
  {
    var k := Key(ae.aggregate);
    var o := Appended(table, ae);
    if k in table && |table[k].events| > 0 {
      var s := table[k].events;
      assert LastVersion(s) == |s|;
      var t := o.table[k].events;
      assert t == s + o.written;
      forall i | 0 <= i < |t| ensures t[i].version == i + 1 {
        if i >= |s| {
          assert t[i] == o.written[i - |s|];
        }
      }
    }
  }

  /** The number of events in a list of batches. */
  function TotalSize(batches: seq<seq<Event>>): nat
  {
    if batches == [] then 0 else TotalSize(batches[..|batches| - 1]) + |batches[|batches| - 1]|
  }

  /** Appends a list of batches for one aggregate, in order. */
  function AppendedAll(table: map<string, AggregateEvents>, a: Aggregate, batches: seq<seq<Event>>): map<string, AggregateEvents>
  {
    if batches == [] then table
    else Appended(AppendedAll(table, a, batches[..|batches| - 1]), AggregateEvents(a, batches[|batches| - 1])).table
  }

  /**
   * After any sequence of non-empty appends to an unseen aggregate, its
   * stored versions are exactly 1..total, with no gap and no duplicate.
   */
  lemma {:induction false} AppendedAllContiguous(table: map<string, AggregateEvents>, a: Aggregate, batches: seq<seq<Event>>)
    requires Key(a) !in table
    requires |batches| > 0
    requires forall i :: 0 <= i < |batches| ==> |batches[i]| > 0
    ensures Key(a) in AppendedAll(table, a, batches)
    ensures var evs := AppendedAll(table, a, batches)[Key(a)].events;
      |evs| == TotalSize(batches) && Contiguous(evs)
  {
    var init := batches[..|batches| - 1];
    var last := batches[|batches| - 1];
    if init == [] {
      AppendToNew(table, AggregateEvents(a, last));
      assert TotalSize(batches) == TotalSize(init) + |last|;
    } else {
      AppendedAllContiguous(table, a, init);
      var t := AppendedAll(table, a, init);
      var s := t[Key(a)].events;
      assert |s| > 0;
      assert LastVersion(s) == |s|;
      AppendToExisting(t, AggregateEvents(a, last));
      var u := Appended(t, AggregateEvents(a, last));
      var n := u.table[Key(a)].events;
      assert n == s + u.written;
      forall i | 0 <= i < |n| ensures n[i].version == i + 1 {
        if i >= |s| {
          assert n[i] == u.written[i - |s|];
        }
      }
    }
  }

  /** `FromVersion` after `Append` sees the old history followed by the written batch. */
  lemma HistoryAfterAppend(table: map<string, AggregateEvents>, ae: AggregateEvents, b: Aggregate)
    requires Appended(table, ae).err == None
    ensures Key(b) == Key(ae.aggregate) ==>
      History(Appended(table, ae).table, b).events == History(table, b).events + Appended(table, ae).written
    ensures Key(b) != Key(ae.aggregate) ==> History(Appended(table, ae).table, b) == History(table, b)
  {
  }

  /** The key is ambiguous: two different aggregates can share one history. */
  lemma KeyCollision()
    ensures Aggregate("ab", "c") != Aggregate("a", "bc")
    ensures Key(Aggregate("ab", "c")) == Key(Aggregate("a", "bc"))
  {
    assert "ab" + "c" == "abc" == "a" + "bc";
  }

  /** `Since` keeps exactly the events with version at least `after`, in their order. */
  lemma {:induction false} SinceMembers(evs: seq<Event>, after: nat)
    ensures forall e :: e in Since(evs, after) <==> e in evs && e.version >= after
    ensures |Since(evs, after)| <= |evs|
  {
    if evs != [] {
      SinceMembers(evs[..|evs| - 1], after);
      assert evs == evs[..|evs| - 1] + [evs[|evs| - 1]];
    }
  }

  /** On a contiguous history, `Since(evs, after)` is the suffix from version max(after, 1). */
  lemma {:induction false} SinceContiguous(evs: seq<Event>, after: nat)
    requires Contiguous(evs)
    ensures Since(evs, after) == if after <= 1 then evs else if after - 1 <= |evs| then evs[after - 1..] else []
  {
    if evs != [] {
      var init := evs[..|evs| - 1];
      var last := evs[|evs| - 1];
      assert Contiguous(init) by {
        forall i | 0 <= i < |init| ensures init[i].version == i + 1 {
          assert init[i] == evs[i];
        }
      }
      assert last.version == |evs|;
      SinceContiguous(init, after);
      assert Since(evs, after) == Since(init, after) + (if last.version < after then [] else [last]);
      if after <= 1 {
        assert evs == init + [last];
      } else if after - 1 <= |init| {
        assert evs[after - 1..] == init[after - 1..] + [last];
      } else {
        assert Since(init, after) == [] && last.version < after;
      }
    }
  }

  /** Copying from a missing source fails and changes nothing. */
  lemma CopyMissingSource(table: map<string, AggregateEvents>, aggregate: string, src: string, after: nat, dst: string)
    requires src + aggregate !in table
    ensures Copied(table, aggregate, src, after, dst) == AppendOutcome(table, Some(SourceNotFound(aggregate, src)), [])
  {
  }

  /**
   * Copying into a new destination stores the source events with version
   * at least `after`, in source order and renumbered from 1, and leaves the
   * source (and every other entry) unchanged.
   */
  lemma CopyIntoNew(table: map<string, AggregateEvents>, aggregate: string, src: string, after: nat, dst: string)
    requires src + aggregate in table
    requires dst + table[src + aggregate].aggregate.typ !in table
    ensures var source := table[src + aggregate];
      var o := Copied(table, aggregate, src, after, dst);
      var d := dst + source.aggregate.typ;
      && o.err == None
      && o.table[d].aggregate == Aggregate(dst, source.aggregate.typ)
      && o.table[d].events == Stamped(Since(source.events, after), 0)
      && Contiguous(o.table[d].events)
      && o.table[src + aggregate] == source
  {
    var source := table[src + aggregate];
    var cb := CopyBatch(source, after, dst);
    assert Key(cb.aggregate) == dst + source.aggregate.typ;
    AppendToNew(table, cb);
  }

  /**
   * Copying into an existing, non-empty destination appends the selected
   * events after its last version; the source is unchanged unless it is the
   * destination itself.
   */
  lemma CopyIntoExisting(table: map<string, AggregateEvents>, aggregate: string, src: string, after: nat, dst: string)
    requires src + aggregate in table
    requires var d := dst + table[src + aggregate].aggregate.typ; d in table && |table[d].events| > 0
    ensures var source := table[src + aggregate];
      var d := dst + source.aggregate.typ;
      var o := Copied(table, aggregate, src, after, dst);
      && o.err == None
      && o.table[d].events == table[d].events + Stamped(Since(source.events, after), LastVersion(table[d].events))
      && (d != src + aggregate ==> o.table[src + aggregate] == source)
  {
    var source := table[src + aggregate];
    var cb := CopyBatch(source, after, dst);
    assert Key(cb.aggregate) == dst + source.aggregate.typ;
  }

  /** The in-memory store: the table is changed in place. */
  class MemStore {
    var events: map<string, AggregateEvents>

    /** `NewMemory()`: an empty table. */
    constructor ()
      ensures events == map[]
    {
      events := map[];
    }

    /**
     * `Append(ae, expected)`: numbers the batch after the aggregate's last
     * version (from 1 for a new one), stores it and returns the batch as
     * written back. The expected version plays no part in the outcome.
     */
    method Append(ae: AggregateEvents, expected: nat) returns (err: Option<string>, written: seq<Event>)
      modifies this
      ensures AppendOutcome(events, err, written) == Appended(old(events), ae)
    {
      var k := ae.aggregate.id + ae.aggregate.typ;
      if k in events {
        var a := events[k];
        if |a.events| == 0 {
          // `a.Events[len(a.Events)-1]` panics here
          return Some(IndexOutOfRange), ae.events;
        }
        var last := a.events[|a.events| - 1].version;
        var v := last;
        var stored := a.events;
        written := ae.events;
        var i := 0;
        while i < |ae.events|
          invariant 0 <= i <= |ae.events|
          invariant v == last + i
          invariant |written| == |ae.events|
          invariant forall j :: 0 <= j < i ==> written[j] == WithVersion(ae.events[j], last + j + 1)
          invariant forall j :: i <= j < |ae.events| ==> written[j] == ae.events[j]
          invariant stored == a.events + written[..i]
        {
          v := v + 1;
          written := written[i := WithVersion(written[i], v)];
          stored := stored + [written[i]];
          i := i + 1;
        }
        assert written == Stamped(ae.events, last);
        assert written[..i] == written;
        events := events[k := a.(events := stored)];
        return None, written;
      }
      written := ae.events;
      var i := 0;
      while i < |ae.events|
        invariant 0 <= i <= |ae.events|
        invariant |written| == |ae.events|
        invariant forall j :: 0 <= j < i ==> written[j] == WithVersion(ae.events[j], j + 1)
        invariant forall j :: i <= j < |ae.events| ==> written[j] == ae.events[j]
      {
        written := written[i := WithVersion(written[i], i + 1)];
        i := i + 1;
      }
      assert written == Stamped(ae.events, 0);
      events := events[k := ae.(events := written)];
      err := None;
    }

    /** `FromVersion(a, 0)`: the stored batch, or the zero batch; never an error. */
    method FromVersion(a: Aggregate, v: nat) returns (r: AggregateEvents, err: Option<string>)
      requires v == 0
      ensures err == None
      ensures r == History(events, a)
    {
      r := if a.id + a.typ in events then events[a.id + a.typ] else AggregateEvents(Aggregate("", ""), []);
      err := None;
    }

    /**
     * `Copy(aggregate, src, after, dst)`: re-appends the source events with
     * version at least `after` under `dst` through `Append`.
     */
    method Copy(aggregate: string, src: string, after: nat, dst: string) returns (err: Option<string>)
      modifies this
      ensures (events, err) == (Copied(old(events), aggregate, src, after, dst).table,
                                Copied(old(events), aggregate, src, after, dst).err)
    {
      if src + aggregate !in events {
        return Some(aggregate + ":" + src + " source not found");
      }
      var source := events[src + aggregate];
      var selected: seq<Event> := [];
      var i := 0;
      while i < |source.events|
        invariant 0 <= i <= |source.events|
        invariant selected == Since(source.events[..i], after)
      {
        assert source.events[..i + 1][..i] == source.events[..i];
        if source.events[i].version >= after {
          selected := selected + [source.events[i]];
        }
        i := i + 1;
      }
      assert source.events[..i] == source.events;
      var a := AggregateEvents(Aggregate(dst, source.aggregate.typ), selected);
      var written;
      err, written := Append(a, 0);
    }
  }
}

/** What a schedule migration keeps and what it achieves, whichever calls fail. */
module MigrationLaws {
  import opened Wrappers
  import opened Migration

  /** A schedule of the target is made from one of the source: with its specification, or the zero
      one if it has none, and with its settings. */
  predicate MadeFrom(s: Schedule, original: Schedule) {
    && s.spec == (if original.spec.Some? then original.spec else Some(ZERO_SPEC))
    && s.settings == original.settings
  }

  /** Nothing was lost and nothing was overwritten between two states, and nothing was added to the
      source. */
  ghost predicate Kept(w: World, v: World) {
    && (forall id :: id in w.target ==> id in v.target && v.target[id] == w.target[id])
    && (forall id :: id in v.target ==> id in w.target || (id in w.source && MadeFrom(v.target[id], w.source[id])))
    && (forall id :: id in v.source ==> id in w.source && v.source[id] == w.source[id])
    && (forall id :: id in w.source ==> id in v.source || id in v.target)
  }

  lemma KeptIsTransitive(w: World, v: World, u: World)
    requires Kept(w, v) && Kept(v, u)
    ensures Kept(w, u)
  {
  }

  /** The caller's check was asked about the entry, because the target did not describe a schedule
      of that name, and said to ignore it. */
  predicate SaysIgnore(w: World, id: string) {
    |w.answers| >= 3 && w.answers[0].ok && !(w.answers[1].ok && id in w.target) && w.answers[2].ignore
  }

  lemma RemovalMoves(w: World, id: string, deleteSource: bool)
    requires id in w.target
    ensures var r := Removal(w, id, deleteSource);
            && Kept(w, r.world) && r.outcome != Done(true)
            && (r.outcome == Done(false) ==> id in r.world.target && (deleteSource ==> id !in r.world.source))
            && (!deleteSource ==> r.world.source == w.source)
  {
  }

  lemma TransferMoves(w: World, id: string, deleteSource: bool)
    ensures var r := Transfer(w, id, deleteSource);
            && Kept(w, r.world) && r.outcome != Done(true)
            && (r.outcome == Done(false) ==> id in r.world.target && (deleteSource ==> id !in r.world.source))
            && (!deleteSource ==> r.world.source == w.source)
  {
    var desc := DescribeOf(w, w.source, id);
    if desc.outcome.Done? {
      var created := CreateOf(desc.world, id, Copy(desc.outcome.value));
      assert Kept(w, created.world);
      if created.outcome.Done? {
        RemovalMoves(created.world, id, deleteSource);
        KeptIsTransitive(w, created.world, Removal(created.world, id, deleteSource).world);
      }
    }
  }

  /** One entry: nothing is lost, it counts as ignored exactly when the check said so, and when it
      has been dealt with the target has it and, if asked to be, the source is rid of it. */
  lemma EntryMoves(w: World, id: string, deleteSource: bool)
    ensures var r := EntryOf(w, id, deleteSource);
            && Kept(w, r.world)
            && (r.outcome == Done(true) <==> SaysIgnore(w, id))
            && (r.outcome == Done(true) ==> r.world.source == w.source && r.world.target == w.target)
            && (r.outcome == Done(false) ==> id in r.world.target && (deleteSource ==> id !in r.world.source))
            && (!deleteSource ==> r.world.source == w.source)
  {
    var ent := NextOf(w);
    if ent.outcome.Done? {
      var there := DescribeOf(ent.world, w.target, id);
      if there.outcome.Done? {
        RemovalMoves(there.world, id, deleteSource);
      } else if there.outcome.Failed? {
        var ignore := CheckOf(there.world);
        TransferMoves(ignore.world, id, deleteSource);
      }
    }
  }

  /** An entry that was seen has been ignored exactly because the check said so, or it is in the
      target and, when the source is to be emptied, no longer in the source. */
  predicate Settled(seen: Seen, id: string, deleteSource: bool, v: World) {
    && (seen.ignored <==> SaysIgnore(seen.before, id))
    && (!seen.ignored ==> id in v.target && (deleteSource ==> id !in v.source))
  }

  predicate AllSettled(seen: seq<Seen>, listing: seq<string>, deleteSource: bool, v: World) {
    |seen| == |listing| && forall k :: 0 <= k < |listing| ==> Settled(seen[k], listing[k], deleteSource, v)
  }

  /** A pass loses nothing. If it completes, the ignored entries are exactly those about which the
      check was asked and said so, and every other listed schedule is in the target and, when the
      source is to be emptied, no longer in the source. */
  lemma {:induction false} PassMoves(w: World, listing: seq<string>, deleteSource: bool)
    ensures var r := EntriesOf(w, listing, deleteSource);
            && Kept(w, r.world)
            && (r.outcome.Done? ==> AllSettled(r.outcome.value, listing, deleteSource, r.world))
            && (!deleteSource ==> r.world.source == w.source)
    decreases |listing|
  {
    if listing != [] {
      var one := EntryOf(w, listing[0], deleteSource);
      EntryMoves(w, listing[0], deleteSource);
      if one.outcome.Done? {
        var rest := EntriesOf(one.world, listing[1..], deleteSource);
        PassMoves(one.world, listing[1..], deleteSource);
        KeptIsTransitive(w, one.world, rest.world);
        if rest.outcome.Done? {
          OneMoreSettled(Seen(w, one.outcome.value), rest.outcome.value, listing, deleteSource, one.world, rest.world);
        }
      }
    }
  }

  lemma OneMoreSettled(first: Seen, seen: seq<Seen>, listing: seq<string>, deleteSource: bool, v: World, u: World)
    requires listing != [] && Settled(first, listing[0], deleteSource, v) && Kept(v, u)
    requires AllSettled(seen, listing[1..], deleteSource, u)
    ensures AllSettled([first] + seen, listing, deleteSource, u)
  {
    forall k | 0 <= k < |listing| ensures Settled(([first] + seen)[k], listing[k], deleteSource, u) {
      if k > 0 {
        assert listing[k] == listing[1..][k - 1] && Settled(seen[k - 1], listing[1..][k - 1], deleteSource, u);
      }
    }
  }

  /** No call reports an error. */
  predicate ErrorFree(answers: seq<Answer>) {
    forall i :: 0 <= i < |answers| ==> answers[i].ok
  }

  /** Everything listed is in one of the backends. */
  predicate Known(w: World, listing: seq<string>) {
    forall id :: id in listing ==> id in w.source || id in w.target
  }

  /** An entry that is in one of the backends needs at most six calls, and fails only if one does. */
  lemma EntryCompletes(w: World, id: string, deleteSource: bool)
    requires ErrorFree(w.answers) && |w.answers| >= 6 && (id in w.source || id in w.target)
    ensures var r := EntryOf(w, id, deleteSource);
            r.outcome.Done? && ErrorFree(r.world.answers) && |r.world.answers| >= |w.answers| - 6
  {
    var a := w.answers;
    assert a[1..][1..] == a[2..] && a[2..][1..] == a[3..] && a[3..][1..] == a[4..] && a[4..][1..] == a[5..] && a[5..][1..] == a[6..];
  }

  /** A pass in which no call reports an error completes. */
  lemma {:induction false} ErrorFreePassCompletes(w: World, listing: seq<string>, deleteSource: bool)
    requires Known(w, listing) && ErrorFree(w.answers) && |w.answers| >= 6 * |listing|
    ensures EntriesOf(w, listing, deleteSource).outcome.Done?
    decreases |listing|
  {
    if listing != [] {
      EntryCompletes(w, listing[0], deleteSource);
      EntryMoves(w, listing[0], deleteSource);
      ErrorFreePassCompletes(EntryOf(w, listing[0], deleteSource).world, listing[1..], deleteSource);
    }
  }

  /** The check never says to ignore anything. */
  predicate IgnoresNothing(answers: seq<Answer>) {
    forall i :: 0 <= i < |answers| ==> !answers[i].ignore
  }

  /** So a pass without errors over all of the source, with nothing ignored, empties the source into
      the target. */
  lemma ErrorFreePassEmptiesTheSource(w: World, listing: seq<string>)
    requires ErrorFree(w.answers) && |w.answers| >= 6 * |listing| && IgnoresNothing(w.answers)
    requires forall id :: id in listing <==> id in w.source
    ensures var r := EntriesOf(w, listing, true);
            && r.outcome.Done? && r.world.source == map[]
            && forall id :: id in w.source ==> id in r.world.target
  {
    ErrorFreePassCompletes(w, listing, true);
    PassMoves(w, listing, true);
    NothingIgnored(w, listing, true);
    var r := EntriesOf(w, listing, true);
    forall id | id in w.source ensures id !in r.world.source && id in r.world.target {
      var i :| 0 <= i < |listing| && listing[i] == id;
      assert Settled(r.outcome.value[i], listing[i], true, r.world);
    }
  }

  predicate NoneIgnored(seen: seq<Seen>) {
    forall k :: 0 <= k < |seen| ==> !seen[k].ignored
  }

  lemma {:induction false} NothingIgnored(w: World, listing: seq<string>, deleteSource: bool)
    requires IgnoresNothing(w.answers) && EntriesOf(w, listing, deleteSource).outcome.Done?
    ensures NoneIgnored(EntriesOf(w, listing, deleteSource).outcome.value)
    decreases |listing|
  {
    if listing != [] {
      var one := EntryOf(w, listing[0], deleteSource);
      EntryNotIgnored(w, listing[0], deleteSource);
      NothingIgnored(one.world, listing[1..], deleteSource);
    }
  }

  lemma EntryNotIgnored(w: World, id: string, deleteSource: bool)
    requires IgnoresNothing(w.answers)
    ensures EntryOf(w, id, deleteSource).outcome != Done(true) && IgnoresNothing(EntryOf(w, id, deleteSource).world.answers)
  {
    EntryMoves(w, id, deleteSource);
    EntryDrops(w, id, deleteSource);
    StillIgnoresNothing(w, EntryOf(w, id, deleteSource).world);
  }

  lemma StillIgnoresNothing(w: World, v: World)
    requires IgnoresNothing(w.answers) && Drops(w, v)
    ensures IgnoresNothing(v.answers)
  {
  }

  /** Answers are used up from the front. */
  predicate Drops(w: World, v: World) {
    |v.answers| <= |w.answers| && v.answers == w.answers[|w.answers| - |v.answers|..]
  }

  lemma DropsIsTransitive(w: World, v: World, u: World)
    requires Drops(w, v) && Drops(v, u)
    ensures Drops(w, u)
  {
  }

  lemma OneDropped(w: World, v: World)
    requires v.answers == w.answers || (w.answers != [] && v.answers == w.answers[1..])
    ensures Drops(w, v)
  {
    assert w.answers[0..] == w.answers;
  }

  lemma RemovalDrops(w: World, id: string, deleteSource: bool)
    ensures Drops(w, Removal(w, id, deleteSource).world)
  {
    OneDropped(w, Removal(w, id, deleteSource).world);
  }

  lemma TransferDrops(w: World, id: string, deleteSource: bool)
    ensures Drops(w, Transfer(w, id, deleteSource).world)
  {
    var desc := DescribeOf(w, w.source, id);
    if desc.outcome.Done? {
      var created := CreateOf(desc.world, id, Copy(desc.outcome.value));
      DropsIsTransitive(w, desc.world, created.world);
      if created.outcome.Done? {
        RemovalDrops(created.world, id, deleteSource);
        DropsIsTransitive(w, created.world, Removal(created.world, id, deleteSource).world);
      }
    }
  }

  lemma EntryDrops(w: World, id: string, deleteSource: bool)
    ensures Drops(w, EntryOf(w, id, deleteSource).world)
  {
    var ent := NextOf(w);
    if ent.outcome.Done? {
      var there := DescribeOf(ent.world, w.target, id);
      DropsIsTransitive(w, ent.world, there.world);
      if there.outcome.Done? {
        RemovalDrops(there.world, id, deleteSource);
        DropsIsTransitive(w, there.world, Removal(there.world, id, deleteSource).world);
      } else {
        var ignore := CheckOf(there.world);
        DropsIsTransitive(w, there.world, ignore.world);
        TransferDrops(ignore.world, id, deleteSource);
        DropsIsTransitive(w, ignore.world, Transfer(ignore.world, id, deleteSource).world);
      }
    }
  }

  // Whole migrations.

  /** A completed pass is one of its listing from its first state to its last. */
  predicate IsPass(p: Pass, deleteSource: bool) {
    EntriesOf(p.before, p.listing, deleteSource) == Step(Done(p.seen), p.after)
  }

  /** At every point and however it ends, a migration has lost and overwritten nothing, and the
      source changes only if asked to. */
  lemma {:induction false} MigrationIsSafe(w: World, deleteSource: bool)
    ensures Kept(w, MigrateOf(w, deleteSource).world)
    ensures !deleteSource ==> MigrateOf(w, deleteSource).world.source == w.source
    decreases |w.answers|
  {
    var l := ListOf(w);
    if l.outcome.Done? {
      var p := EntriesOf(l.world, l.outcome.value, deleteSource);
      PassMoves(l.world, l.outcome.value, deleteSource);
      PassUsesAnswers(l.world, l.outcome.value, deleteSource);
      if p.outcome.Done? && l.outcome.value != [] {
        MigrationIsSafe(p.world, deleteSource);
        KeptIsTransitive(w, p.world, MigrateOf(p.world, deleteSource).world);
      }
    }
  }

  predicate AllPassesSettled(passes: seq<Pass>, deleteSource: bool) {
    forall i :: 0 <= i < |passes| ==>
      IsPass(passes[i], deleteSource) && AllSettled(passes[i].seen, passes[i].listing, deleteSource, passes[i].after)
  }

  /** Every pass that a migration completes has settled its listing, and a migration succeeds only
      after an empty listing. */
  lemma {:induction false} PassesAreSettled(w: World, deleteSource: bool)
    ensures AllPassesSettled(MigrateOf(w, deleteSource).passes, deleteSource)
    ensures var m := MigrateOf(w, deleteSource);
            m.outcome.Done? ==> m.listed != [] && m.listed[|m.listed| - 1].1 == []
    decreases |w.answers|
  {
    var l := ListOf(w);
    if l.outcome.Done? {
      var p := EntriesOf(l.world, l.outcome.value, deleteSource);
      PassMoves(l.world, l.outcome.value, deleteSource);
      PassUsesAnswers(l.world, l.outcome.value, deleteSource);
      if p.outcome.Done? && l.outcome.value != [] {
        PassesAreSettled(p.world, deleteSource);
      }
    }
  }

  /** A listing listed what the source held. */
  ghost predicate IsTrue(l: (Schedules, seq<string>)) {
    forall id :: id in l.0 <==> id in l.1
  }

  ghost predicate ListsTruly(listed: seq<(Schedules, seq<string>)>) {
    forall i :: 0 <= i < |listed| ==> IsTrue(listed[i])
  }

  lemma ListsTrulyRest(l: (Schedules, seq<string>), rest: seq<(Schedules, seq<string>)>)
    requires ListsTruly([l] + rest)
    ensures IsTrue(l) && ListsTruly(rest)
  {
    assert ([l] + rest)[0] == l;
    forall i | 0 <= i < |rest| ensures IsTrue(rest[i]) {
      assert ([l] + rest)[i + 1] == rest[i];
    }
  }

  lemma EmptyListing(s: Schedules)
    requires IsTrue((s, []))
    ensures s == map[]
  {
    assert forall id :: id !in s;
  }

  /** If listings are true, success means that the source is empty. */
  lemma {:induction false} SuccessMeansEmptied(w: World, deleteSource: bool)
    requires MigrateOf(w, deleteSource).outcome.Done? && ListsTruly(MigrateOf(w, deleteSource).listed)
    ensures MigrateOf(w, deleteSource).world.source == map[]
    decreases |w.answers|
  {
    var l := ListOf(w);
    var listing := l.outcome.value;
    var p := EntriesOf(l.world, listing, deleteSource);
    PassUsesAnswers(l.world, listing, deleteSource);
    if listing == [] {
      ListsTrulyRest((w.source, []), []);
      EmptyListing(w.source);
    } else {
      ListsTrulyRest((w.source, listing), MigrateOf(p.world, deleteSource).listed);
      SuccessMeansEmptied(p.world, deleteSource);
    }
  }

  /** So without deleting, the migration of a source that holds anything never succeeds. */
  lemma NeverSucceedsWithoutDeleting(w: World)
    requires w.source != map[] && ListsTruly(MigrateOf(w, false).listed)
    ensures !MigrateOf(w, false).outcome.Done?
  {
    MigrationIsSafe(w, false);
    if MigrateOf(w, false).outcome.Done? {
      SuccessMeansEmptied(w, false);
    }
  }

  /** A migration and what its surroundings will answer. */
  datatype Attempt = Attempt(deleteSource: bool, answers: seq<Answer>)

  /** The state after attempts one after the other, however each of them ends. */
  function After(w: World, attempts: seq<Attempt>): World {
    if attempts == [] then w
    else
      var n := |attempts| - 1;
      MigrateOf(After(w, attempts[..n]).(answers := attempts[n].answers), attempts[n].deleteSource).world
  }

  /** An original schedule is still in the source, or the target holds one made from it, except that
      a target schedule of its name that was there before may stand in. */
  predicate Survives(id: string, w: World, v: World)
    requires id in w.source
  {
    || (id in v.source && v.source[id] == w.source[id])
    || (id in v.target && if id in w.target then v.target[id] == w.target[id] else MadeFrom(v.target[id], w.source[id]))
  }

  /** Any number of attempts lose and overwrite nothing: the specification and the settings of every
      original schedule whose name was not taken are in the source or in the target. */
  lemma {:induction false} RetriesKeepEverything(w: World, attempts: seq<Attempt>)
    ensures Kept(w, After(w, attempts))
    ensures forall id :: id in w.source ==> Survives(id, w, After(w, attempts))
    ensures var v := After(w, attempts);
            forall id :: id in w.source && id !in w.target && w.source[id].spec.Some? ==>
              || (id in v.source && v.source[id].spec == w.source[id].spec && v.source[id].settings == w.source[id].settings)
              || (id in v.target && v.target[id].spec == w.source[id].spec && v.target[id].settings == w.source[id].settings)
  {
    if attempts != [] {
      var n := |attempts| - 1;
      var v := After(w, attempts[..n]).(answers := attempts[n].answers);
      RetriesKeepEverything(w, attempts[..n]);
      MigrationIsSafe(v, attempts[n].deleteSource);
      KeptIsTransitive(w, v, After(w, attempts));
    }
  }
}

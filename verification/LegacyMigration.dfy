/**
 Folding the legacy secret stores into the vault, in a process that may die at any step.

 A run reads every legacy source, writes the vault once and then deletes the sources one by
 one; a deletion may fail silently.  `Migrate` performs a given number of these effects, which
 is how a crash is modelled, and `AfterEffects` is the same on values.
 */
module LegacyMigration {
  import opened Options
  import opened SecretVault

  /** The three categories had their own stores, each as a keychain item and as a file. */
  datatype Place = LegacyItem | LegacyFile

  datatype SourceId = SourceId(place: Place, category: Category)

  /** An unreadable source exists but cannot be read or parsed; what it holds is never seen. */
  datatype Source = Absent | Unreadable(hidden: Secrets) | Readable(entries: Secrets)

  function Entries(s: Source): Secrets {
    if s.Readable? then s.entries else map[]
  }

  /** What survives a crash: the vault's store and the legacy sources. */
  datatype Disk = Disk(vault: Stored, sources: map<SourceId, Source>) {
    function At(place: Place, c: Category): Source {
      if SourceId(place, c) in sources then sources[SourceId(place, c)] else Absent
    }

    function Drop(id: SourceId): Disk {
      this.(sources := sources[id := Absent])
    }
  }

  datatype Backend = Keychain | File

  /** The legacy entries of one category: files extend, and so override, keychain items. */
  function Merged(d: Disk, probe: bool, c: Category): Secrets {
    (if probe then Entries(d.At(LegacyItem, c)) else map[]) + Entries(d.At(LegacyFile, c))
  }

  predicate NothingToMigrate(d: Disk, probe: bool) {
    Merged(d, probe, Mcp) == map[] && Merged(d, probe, Telegram) == map[] && Merged(d, probe, Channels) == map[]
  }

  /** `or_insert` of every legacy entry: what the vault has stays. */
  function Fold(d: Disk, probe: bool, blob: VaultBlob): VaultBlob {
    VaultBlob(Merged(d, probe, Mcp) + blob.mcp,
              Merged(d, probe, Telegram) + blob.telegram,
              Merged(d, probe, Channels) + blob.channels,
              blob.providers)
  }

  /** The vault as the backend reads it; the file backend refuses text that does not decode. */
  function Load(backend: Backend, stored: Stored): Option<VaultBlob> {
    if backend.File? then FileLoad(stored) else Some(Decode(stored))
  }

  /** The deletions after the fold, in order. */
  function Deletions(probe: bool): seq<SourceId> {
    if probe then AllAt(LegacyItem) + AllAt(LegacyFile) else AllAt(LegacyFile)
  }

  function AllAt(place: Place): seq<SourceId> {
    [SourceId(place, Mcp), SourceId(place, Telegram), SourceId(place, Channels)]
  }

  /** The first `n` deletions, except those that fail. */
  function Delete(d: Disk, ids: seq<SourceId>, stuck: set<SourceId>, n: nat): Disk
    decreases |ids|
  {
    if ids == [] || n == 0 then d
    else Delete(if ids[0] in stuck then d else d.Drop(ids[0]), ids[1..], stuck, n - 1)
  }

  /** A run with something to migrate and a vault it can load goes on to fold and delete. */
  predicate Proceeds(backend: Backend, probe: bool, d: Disk) {
    !NothingToMigrate(d, probe) && Load(backend, d.vault).Some?
  }

  /** The disk after the first `n` effects of a run. */
  function AfterEffects(backend: Backend, probe: bool, stuck: set<SourceId>, d: Disk, n: nat): Disk {
    if Proceeds(backend, probe, d) && n > 0 then
      Delete(d.(vault := Encoded(Fold(d, probe, Decode(d.vault)))), Deletions(probe), stuck, n - 1)
    else d
  }

  /** Every effect: the fold and the deletions. */
  const ALL_EFFECTS: nat := 7

  // ---------------------------------------------------------------- the imperative run

  class LegacyStores {
    var vault: Stored
    var sources: map<SourceId, Source>

    constructor (d: Disk)
      ensures Current() == d
    {
      vault, sources := d.vault, d.sources;
    }

    function Current(): Disk
      reads this
    {
      Disk(vault, sources)
    }

    /** Deletes one source, unless the deletion fails, which goes unnoticed. */
    method Remove(place: Place, c: Category, stuck: set<SourceId>)
      modifies this`sources
      ensures Current() == if SourceId(place, c) in stuck then old(Current()) else old(Current()).Drop(SourceId(place, c))
    {
      if SourceId(place, c) !in stuck {
        sources := sources[SourceId(place, c) := Absent];
      }
    }

    method RemoveAll(place: Place, stuck: set<SourceId>, n: nat) returns (left: nat)
      modifies this`sources
      ensures left == if n < 3 then 0 else n - 3
      ensures Current() == Delete(old(Current()), AllAt(place), stuck, n)
    {
      ghost var goal, ids := Delete(Current(), AllAt(place), stuck, n), AllAt(place);
      assert ids[1..] == [SourceId(place, Telegram), SourceId(place, Channels)];
      assert ids[1..][1..] == [SourceId(place, Channels)];
      if n == 0 {
        return 0;
      }
      Remove(place, Mcp, stuck);
      assert goal == Delete(Current(), ids[1..], stuck, n - 1);
      if n == 1 {
        return 0;
      }
      Remove(place, Telegram, stuck);
      assert goal == Delete(Current(), ids[1..][1..], stuck, n - 2);
      if n == 2 {
        return 0;
      }
      Remove(place, Channels, stuck);
      return n - 3;
    }

    /** The deletions of a run that has folded; it dies after `n` of them. */
    method DeleteSources(probe: bool, stuck: set<SourceId>, n: nat)
      modifies this`sources
      ensures Current() == Delete(old(Current()), Deletions(probe), stuck, n)
    {
      ghost var folded := Current();
      var left := n;
      if probe {
        DeleteInTwo(folded, AllAt(LegacyItem), AllAt(LegacyFile), stuck, n);
        left := RemoveAll(LegacyItem, stuck, left);
      }
      left := RemoveAll(LegacyFile, stuck, left);
    }

    /** Reads one category: the keychain item first, when allowed, then the file on top of it. */
    method Gather(probe: bool, c: Category) returns (secrets: Secrets)
      ensures secrets == Merged(Current(), probe, c)
    {
      secrets := map[];
      if probe {
        secrets := Entries(Current().At(LegacyItem, c));
      }
      secrets := secrets + Entries(Current().At(LegacyFile, c));
    }

    /** The one write of the vault; entries it already has are kept. */
    method WriteFolded(blob: VaultBlob, probe: bool, mcp: Secrets, telegram: Secrets, channels: Secrets)
      requires mcp == Merged(Current(), probe, Mcp) && telegram == Merged(Current(), probe, Telegram)
      requires channels == Merged(Current(), probe, Channels)
      modifies this`vault
      ensures Current() == old(Current()).(vault := Encoded(Fold(old(Current()), probe, blob)))
    {
      vault := Encoded(blob.(mcp := mcp + blob.mcp, telegram := telegram + blob.telegram, channels := channels + blob.channels));
    }

    /** One run, which dies after `n` effects. */
    method Migrate(backend: Backend, probe: bool, stuck: set<SourceId>, n: nat)
      modifies this
      ensures Current() == AfterEffects(backend, probe, stuck, old(Current()), n)
    {
      ghost var d := Current();
      var mcp := Gather(probe, Mcp);
      var telegram := Gather(probe, Telegram);
      var channels := Gather(probe, Channels);
      if mcp == map[] && telegram == map[] && channels == map[] {
        return;
      }
      var loaded := Load(backend, vault);
      if loaded.None? || n == 0 {
        return;
      }
      GoesOn(backend, probe, stuck, d, n, loaded.value);
      FoldAndDelete(loaded.value, probe, mcp, telegram, channels, stuck, n);
    }

    /** The effects of a run that goes on: the write, then the deletions. */
    method FoldAndDelete(blob: VaultBlob, probe: bool, mcp: Secrets, telegram: Secrets, channels: Secrets, stuck: set<SourceId>, n: nat)
      requires mcp == Merged(Current(), probe, Mcp) && telegram == Merged(Current(), probe, Telegram)
      requires channels == Merged(Current(), probe, Channels) && n > 0
      modifies this
      ensures Current() == Delete(old(Current()).(vault := Encoded(Fold(old(Current()), probe, blob))), Deletions(probe), stuck, n - 1)
    {
      WriteFolded(blob, probe, mcp, telegram, channels);
      DeleteSources(probe, stuck, n - 1);
    }
  }

  lemma {:induction false} GoesOn(backend: Backend, probe: bool, stuck: set<SourceId>, d: Disk, n: nat, loaded: VaultBlob)
    requires !NothingToMigrate(d, probe) && Load(backend, d.vault) == Some(loaded) && n > 0
    ensures AfterEffects(backend, probe, stuck, d, n)
            == Delete(d.(vault := Encoded(Fold(d, probe, loaded))), Deletions(probe), stuck, n - 1)
  {
    assert loaded == Decode(d.vault);
  }

  lemma {:induction false} DeleteInTwo(d: Disk, a: seq<SourceId>, b: seq<SourceId>, stuck: set<SourceId>, n: nat)
    ensures Delete(d, a + b, stuck, n)
            == Delete(Delete(d, a, stuck, n), b, stuck, if n < |a| then 0 else n - |a|)
    decreases |a|
  {
    if a == [] {
      assert a + b == b;
    } else if n > 0 {
      assert (a + b)[1..] == a[1..] + b;
      DeleteInTwo(if a[0] in stuck then d else d.Drop(a[0]), a[1..], b, stuck, n - 1);
    }
  }

  // ---------------------------------------------------------------- what a run does

  /** Deletions leave the vault alone and empty some sources. */
  lemma {:induction false} DeleteOnlyDrops(d: Disk, ids: seq<SourceId>, stuck: set<SourceId>, n: nat)
    ensures var d' := Delete(d, ids, stuck, n);
            && d'.vault == d.vault
            && forall p, c :: d'.At(p, c) == d.At(p, c) || (d'.At(p, c) == Absent && SourceId(p, c) in ids && SourceId(p, c) !in stuck)
    decreases |ids|
  {
    if ids != [] && n > 0 {
      DeleteOnlyDrops(if ids[0] in stuck then d else d.Drop(ids[0]), ids[1..], stuck, n - 1);
    }
  }

  /** Sources are as before, or gone and among `ids`. */
  ghost predicate DropsOnly(d: Disk, d': Disk, ids: seq<SourceId>) {
    forall p, c :: d'.At(p, c) == d.At(p, c) || (d'.At(p, c) == Absent && SourceId(p, c) in ids)
  }

  /** The deletions of a run that has left `d'`, told from the disk it leaves. */
  lemma {:induction false} DeletionsLeave(d: Disk, d': Disk, stored: Stored, ids: seq<SourceId>, stuck: set<SourceId>, n: nat)
    requires d' == Delete(d.(vault := stored), ids, stuck, n)
    ensures d'.vault == stored && DropsOnly(d, d', ids)
  {
    var written := d.(vault := stored);
    DeleteOnlyDrops(written, ids, stuck, n);
    assert forall p, c :: written.At(p, c) == d.At(p, c);
  }

  /** A run that proceeds writes the folded vault and otherwise only deletes sources. */
  lemma {:induction false} EffectsFoldAndDrop(backend: Backend, probe: bool, stuck: set<SourceId>, d: Disk, n: nat)
    requires Proceeds(backend, probe, d) && n > 0
    ensures var d' := AfterEffects(backend, probe, stuck, d, n);
            d'.vault == Encoded(Fold(d, probe, Decode(d.vault))) && DropsOnly(d, d', Deletions(probe))
  {
    var blob := Decode(d.vault);
    assert Load(backend, d.vault) == Some(blob);
    DeletionsLeave(d, AfterEffects(backend, probe, stuck, d, n), Encoded(Fold(d, probe, blob)), Deletions(probe), stuck, n - 1);
  }

  /** All deletions: every listed source that is not stuck is gone. */
  lemma {:induction false} DeleteReaches(d: Disk, ids: seq<SourceId>, stuck: set<SourceId>, n: nat)
    requires |ids| <= n
    ensures forall id :: id in ids && id !in stuck ==> Delete(d, ids, stuck, n).At(id.place, id.category) == Absent
    decreases |ids|
  {
    if ids != [] {
      var d1 := if ids[0] in stuck then d else d.Drop(ids[0]);
      DeleteReaches(d1, ids[1..], stuck, n - 1);
      DeleteOnlyDrops(d1, ids[1..], stuck, n - 1);
      assert forall id :: id in ids <==> id == ids[0] || id in ids[1..];
      assert ids[0] !in stuck ==> d1.At(ids[0].place, ids[0].category) == Absent;
    }
  }

  /** Which sources a run may delete. */
  lemma {:induction false} DeletionsAre(probe: bool, p: Place, c: Category)
    ensures SourceId(p, c) in Deletions(probe) <==> c != Providers && (p == LegacyItem ==> probe)
  {
  }

  /** A finished run whose deletions all succeed leaves none of the sources it may delete. */
  lemma {:induction false} FinishedRunEmptiesSources(backend: Backend, probe: bool, d: Disk, p: Place, c: Category)
    requires Proceeds(backend, probe, d) && c != Providers && (p == LegacyItem ==> probe)
    ensures AfterEffects(backend, probe, {}, d, ALL_EFFECTS).At(p, c) == Absent
  {
    DeletionsAre(probe, p, c);
    DeleteReaches(d.(vault := Encoded(Fold(d, probe, Decode(d.vault)))), Deletions(probe), {}, ALL_EFFECTS - 1);
  }

  function FromItem(d: Disk, probe: bool, c: Category, key: string): Option<Secret> {
    match d.At(LegacyItem, c)
    case Readable(entries) => if probe && key in entries then Some(entries[key]) else None
    case _ => None
  }

  /** The secret a finished migration holds: the vault's own, else the legacy file's, else the legacy item's. */
  function Preferred(d: Disk, probe: bool, blob: VaultBlob, c: Category, key: string): Option<Secret> {
    if blob.Get(c, key).Some? || c == Providers then blob.Get(c, key)
    else
      match d.At(LegacyFile, c)
      case Readable(entries) => if key in entries then Some(entries[key]) else FromItem(d, probe, c, key)
      case _ => FromItem(d, probe, c, key)
  }

  lemma {:induction false} LayeredLookup(item: Secrets, file: Secrets, own: Secrets, key: string)
    ensures var all := item + file + own;
            && (key in all <==> key in own || key in file || key in item)
            && (key in all ==> all[key] == if key in own then own[key] else if key in file then file[key] else item[key])
  {
  }

  lemma {:induction false} FoldPrefers(d: Disk, probe: bool, blob: VaultBlob, c: Category, key: string)
    ensures Fold(d, probe, blob).Get(c, key) == Preferred(d, probe, blob, c, key)
  {
    LayeredLookup(if probe then Entries(d.At(LegacyItem, c)) else map[], Entries(d.At(LegacyFile, c)), blob.Section(c), key);
    match c
    case Mcp =>
    case Telegram =>
    case Channels =>
    case Providers =>
  }

  /**
   A finished run holds every secret of the vault and of every readable source, in that order
   of preference, and nothing else.
   */
  lemma {:induction false} MigrationPrefersVaultThenFileThenItem(backend: Backend, probe: bool, stuck: set<SourceId>, d: Disk, c: Category, key: string)
    requires backend.Keychain? || !d.vault.Garbage?
    ensures Decode(AfterEffects(backend, probe, stuck, d, ALL_EFFECTS).vault).Get(c, key)
            == Preferred(d, probe, Decode(d.vault), c, key)
  {
    if Proceeds(backend, probe, d) {
      EffectsFoldAndDrop(backend, probe, stuck, d, ALL_EFFECTS);
      FoldPrefers(d, probe, Decode(d.vault), c, key);
    } else if c != Providers {
      assert key !in Merged(d, probe, c);
    }
  }

  // ---------------------------------------------------------------- when a run does something

  /** A run may read and delete this source. */
  predicate MayTouch(probe: bool, p: Place, c: Category) {
    c != Providers && (p == LegacyItem ==> probe)
  }

  /** Some source that a run may touch can be read and has an entry. */
  ghost predicate HasSomething(d: Disk, probe: bool) {
    exists p, c :: MayTouch(probe, p, c) && d.At(p, c).Readable? && d.At(p, c).entries != map[]
  }

  lemma {:induction false} MergedIsEmptyIff(d: Disk, probe: bool, c: Category)
    ensures Merged(d, probe, c) == map[] <==> Entries(d.At(LegacyFile, c)) == map[] && (probe ==> Entries(d.At(LegacyItem, c)) == map[])
  {
    var item, file := if probe then Entries(d.At(LegacyItem, c)) else map[], Entries(d.At(LegacyFile, c));
    if k :| k in item {
      assert k in item + file;
    }
    if k :| k in file {
      assert k in item + file;
    }
  }

  lemma {:induction false} ProceedsIff(backend: Backend, probe: bool, d: Disk)
    ensures Proceeds(backend, probe, d) <==> HasSomething(d, probe) && (backend.Keychain? || !d.vault.Garbage?)
  {
    MergedIsEmptyIff(d, probe, Mcp);
    MergedIsEmptyIff(d, probe, Telegram);
    MergedIsEmptyIff(d, probe, Channels);
    forall p, c | MayTouch(probe, p, c)
      ensures d.At(p, c).Readable? && d.At(p, c).entries != map[] ==> !NothingToMigrate(d, probe)
    {
    }
    if !NothingToMigrate(d, probe) {
      var c := if Merged(d, probe, Mcp) != map[] then Mcp else if Merged(d, probe, Telegram) != map[] then Telegram else Channels;
      assert MayTouch(probe, LegacyFile, c) && (probe ==> MayTouch(probe, LegacyItem, c));
    }
  }

  // ---------------------------------------------------------------- crashes

  /** The vault that an uninterrupted run leaves. */
  function Goal(backend: Backend, probe: bool, d: Disk): Stored {
    AfterEffects(backend, probe, {}, d, ALL_EFFECTS).vault
  }

  /** The goal in one expression: the folded vault when the run proceeds, the same vault otherwise. */
  lemma {:induction false} GoalIs(backend: Backend, probe: bool, stuck: set<SourceId>, d: Disk)
    ensures AfterEffects(backend, probe, stuck, d, ALL_EFFECTS).vault
            == if Proceeds(backend, probe, d) then Encoded(Fold(d, probe, Decode(d.vault))) else d.vault
  {
    if Proceeds(backend, probe, d) {
      EffectsFoldAndDrop(backend, probe, stuck, d, ALL_EFFECTS);
    }
  }

  /** Folding sources whose entries the blob already covers changes nothing. */
  lemma {:induction false} FoldCovered(d: Disk, probe: bool, blob: VaultBlob)
    requires forall c :: c != Providers ==> Merged(d, probe, c).Keys <= blob.Section(c).Keys
    ensures Fold(d, probe, blob) == blob
  {
    assert Merged(d, probe, Mcp) + blob.Section(Mcp) == blob.mcp;
    assert Merged(d, probe, Telegram) + blob.Section(Telegram) == blob.telegram;
    assert Merged(d, probe, Channels) + blob.Section(Channels) == blob.channels;
  }

  /** Whatever was deleted, what is left to merge is covered by the vault that was written. */
  lemma {:induction false} RemainingIsCovered(d: Disk, d': Disk, probe: bool, blob: VaultBlob)
    requires forall p, c :: d'.At(p, c) == d.At(p, c) || d'.At(p, c) == Absent
    ensures forall c :: c != Providers ==> Merged(d', probe, c).Keys <= Fold(d, probe, blob).Section(c).Keys
  {
    forall c | c != Providers
      ensures Merged(d', probe, c).Keys <= Fold(d, probe, blob).Section(c).Keys
    {
      assert d'.At(LegacyItem, c) == d.At(LegacyItem, c) || d'.At(LegacyItem, c) == Absent;
      assert d'.At(LegacyFile, c) == d.At(LegacyFile, c) || d'.At(LegacyFile, c) == Absent;
      assert Merged(d', probe, c).Keys <= Merged(d, probe, c).Keys;
    }
  }

  /** A run that dies after any number of effects, with any deletions failing, leaves the goal where it was. */
  lemma {:induction false} CrashKeepsGoal(backend: Backend, probe: bool, stuck: set<SourceId>, d: Disk, n: nat)
    ensures Goal(backend, probe, AfterEffects(backend, probe, stuck, d, n)) == Goal(backend, probe, d)
  {
    var d' := AfterEffects(backend, probe, stuck, d, n);
    if Proceeds(backend, probe, d) && n > 0 {
      var blob := Fold(d, probe, Decode(d.vault));
      EffectsFoldAndDrop(backend, probe, stuck, d, n);
      RemainingIsCovered(d, d', probe, Decode(d.vault));
      FoldCovered(d', probe, blob);
      GoalIs(backend, probe, {}, d');
      GoalIs(backend, probe, {}, d);
    }
  }

  /** One attempt: the deletions that fail and the number of effects before the process dies. */
  datatype Attempt = Attempt(stuck: set<SourceId>, effects: nat)

  function AfterAttempts(backend: Backend, probe: bool, d: Disk, attempts: seq<Attempt>): Disk
    decreases |attempts|
  {
    if attempts == [] then d
    else AfterAttempts(backend, probe, AfterEffects(backend, probe, attempts[0].stuck, d, attempts[0].effects), attempts[1..])
  }

  /**
   However often the migration dies and wherever, a run that gets through reaches the vault an
   uninterrupted run would have reached.
   */
  lemma {:induction false} CrashesReachSameVault(backend: Backend, probe: bool, d: Disk, attempts: seq<Attempt>, stuck: set<SourceId>)
    ensures AfterEffects(backend, probe, stuck, AfterAttempts(backend, probe, d, attempts), ALL_EFFECTS).vault
            == Goal(backend, probe, d)
    decreases |attempts|
  {
    if attempts == [] {
      GoalIs(backend, probe, stuck, d);
      GoalIs(backend, probe, {}, d);
    } else {
      CrashKeepsGoal(backend, probe, attempts[0].stuck, d, attempts[0].effects);
      CrashesReachSameVault(backend, probe, AfterEffects(backend, probe, attempts[0].stuck, d, attempts[0].effects), attempts[1..], stuck);
    }
  }

  /** After a finished run one more run changes nothing: neither the vault nor any source. */
  lemma {:induction false} SecondRunChangesNothing(backend: Backend, probe: bool, d: Disk)
    ensures var done := AfterEffects(backend, probe, {}, d, ALL_EFFECTS);
            AfterEffects(backend, probe, {}, done, ALL_EFFECTS) == done
  {
    var done := AfterEffects(backend, probe, {}, d, ALL_EFFECTS);
    if Proceeds(backend, probe, d) {
      forall c | c != Providers
        ensures Merged(done, probe, c) == map[]
      {
        FinishedRunEmptiesSources(backend, probe, d, LegacyFile, c);
        if probe {
          FinishedRunEmptiesSources(backend, probe, d, LegacyItem, c);
        }
      }
      assert NothingToMigrate(done, probe);
    }
  }

  /**
   A source that cannot be read is deleted by a finished run, with everything it hides, exactly
   when the run had something to migrate from elsewhere and could load the vault (and, for a
   keychain item, was allowed to touch the keychain).
   */
  lemma {:induction false} UnreadableSourceLostIff(backend: Backend, probe: bool, d: Disk, p: Place, c: Category)
    requires c != Providers && d.At(p, c).Unreadable?
    ensures AfterEffects(backend, probe, {}, d, ALL_EFFECTS).At(p, c) == Absent
            <==> HasSomething(d, probe) && (backend.Keychain? || !d.vault.Garbage?) && (p == LegacyItem ==> probe)
  {
    ProceedsIff(backend, probe, d);
    if Proceeds(backend, probe, d) {
      DeletionsAre(probe, p, c);
      EffectsFoldAndDrop(backend, probe, {}, d, ALL_EFFECTS);
      if p == LegacyItem ==> probe {
        FinishedRunEmptiesSources(backend, probe, d, p, c);
      }
    }
  }

  /** One readable source is enough for a run to delete an unreadable one, whose secret is then nowhere. */
  lemma {:induction false} UnreadableSourceIsLost(secret: Secret, other: Secret) returns (d: Disk)
    ensures d.At(LegacyFile, Mcp) == Unreadable(map["server" := secret])
    ensures var done := AfterEffects(File, true, {}, d, ALL_EFFECTS);
            done.At(LegacyFile, Mcp) == Absent && done.vault == Encoded(EMPTY_BLOB.(telegram := map["agent" := other]))
  {
    d := Disk(Missing, map[SourceId(LegacyFile, Mcp) := Unreadable(map["server" := secret]),
                           SourceId(LegacyFile, Telegram) := Readable(map["agent" := other])]);
    assert Merged(d, true, Mcp) == map[] && Merged(d, true, Channels) == map[];
    assert Merged(d, true, Telegram) == map["agent" := other];
    assert "agent" in Merged(d, true, Telegram);
    assert MayTouch(true, LegacyFile, Telegram) && "agent" in d.At(LegacyFile, Telegram).entries;
    UnreadableSourceLostIff(File, true, d, LegacyFile, Mcp);
    EffectsFoldAndDrop(File, true, {}, d, ALL_EFFECTS);
    assert map["agent" := other] + map[] == map["agent" := other];
    assert Fold(d, true, EMPTY_BLOB) == EMPTY_BLOB.(telegram := map["agent" := other]);
  }

  // ---------------------------------------------------------------- how far a run gets

  lemma {:induction false} RunFoldsIff(backend: Backend, probe: bool, d: Disk)
    ensures AfterEffects(backend, probe, {}, d, ALL_EFFECTS).vault ==
              if HasSomething(d, probe) && (backend.Keychain? || !d.vault.Garbage?)
              then Encoded(Fold(d, probe, Decode(d.vault))) else d.vault
  {
    ProceedsIff(backend, probe, d);
    GoalIs(backend, probe, {}, d);
  }

  /**
   A finished run does its work exactly when some source that it may touch can be read and has an
   entry, and the vault can be loaded, which only a vault file that does not decode prevents: then the
   vault holds the preferred secret for every key and every source that it may touch is gone.
   Otherwise nothing changes.
   */
  lemma {:induction false} FinishedRunWorksIff(backend: Backend, probe: bool, d: Disk, p: Place, c: Category, key: string)
    ensures var done := AfterEffects(backend, probe, {}, d, ALL_EFFECTS);
            if HasSomething(d, probe) && (backend.Keychain? || !d.vault.Garbage?) then
              && done.vault.Encoded? && done.vault.blob.Get(c, key) == Preferred(d, probe, Decode(d.vault), c, key)
              && done.At(p, c) == if MayTouch(probe, p, c) then Absent else d.At(p, c)
            else done == d
  {
    ProceedsIff(backend, probe, d);
    RunFoldsIff(backend, probe, d);
    FoldPrefers(d, probe, Decode(d.vault), c, key);
    if Proceeds(backend, probe, d) {
      EffectsFoldAndDrop(backend, probe, {}, d, ALL_EFFECTS);
      DeletionsAre(probe, p, c);
      if MayTouch(probe, p, c) {
        FinishedRunEmptiesSources(backend, probe, d, p, c);
      }
    }
  }

  /** The first start on a keychain without a vault item: the legacy file's secret is stored and the file deleted. */
  lemma {:induction false} FirstStartMigrates(secret: Secret) returns (d: Disk)
    ensures d.vault == Missing && d.At(LegacyFile, Telegram) == Readable(map["agent" := secret])
    ensures var done := AfterEffects(Keychain, true, {}, d, ALL_EFFECTS);
            && done.vault.Encoded? && done.vault.blob.Get(Telegram, "agent") == Some(secret)
            && done.At(LegacyFile, Telegram) == Absent
  {
    d := Disk(Missing, map[SourceId(LegacyFile, Telegram) := Readable(map["agent" := secret])]);
    assert MayTouch(true, LegacyFile, Telegram) && "agent" in d.At(LegacyFile, Telegram).entries;
    FinishedRunWorksIff(Keychain, true, d, LegacyFile, Telegram, "agent");
  }

  lemma {:induction false} DeletesTheFirst(d: Disk, ids: seq<SourceId>, stuck: set<SourceId>, n: nat, p: Place, c: Category)
    ensures Delete(d, ids, stuck, n).At(p, c) ==
              if SourceId(p, c) in ids[..if n < |ids| then n else |ids|] && SourceId(p, c) !in stuck then Absent else d.At(p, c)
    decreases |ids|
  {
    if ids != [] && n > 0 {
      var m := if n < |ids| then n else |ids|;
      assert ids[..m] == [ids[0]] + ids[1..][..m - 1];
      DeletesTheFirst(if ids[0] in stuck then d else d.Drop(ids[0]), ids[1..], stuck, n - 1, p, c);
    }
  }

  /** When a source's turn comes: the keychain items first, if they may be touched, then the files, in this order of categories. */
  function Turn(probe: bool, p: Place, c: Category): nat {
    (if p == LegacyFile && probe then 3 else 0)
    + match c case Mcp => 0 case Telegram => 1 case Channels => 2 case Providers => 0
  }

  lemma {:induction false} DeletionsInTurn(probe: bool, p: Place, c: Category, n: nat)
    requires n <= |Deletions(probe)|
    ensures SourceId(p, c) in Deletions(probe)[..n] <==> MayTouch(probe, p, c) && Turn(probe, p, c) < n
  {
    var ids := Deletions(probe);
    if MayTouch(probe, p, c) {
      assert Turn(probe, p, c) < |ids| && ids[Turn(probe, p, c)] == SourceId(p, c);
      if Turn(probe, p, c) < n {
        assert ids[..n][Turn(probe, p, c)] == SourceId(p, c);
      }
    }
    if SourceId(p, c) in ids[..n] {
      var i :| 0 <= i < n && ids[i] == SourceId(p, c);
      DeletionsAre(probe, p, c);
    }
  }

  lemma {:induction false} DeletedInTurn(d: Disk, d': Disk, stored: Stored, probe: bool, stuck: set<SourceId>, n: nat, p: Place, c: Category)
    requires d' == Delete(d.(vault := stored), Deletions(probe), stuck, n)
    ensures d'.At(p, c) == if MayTouch(probe, p, c) && Turn(probe, p, c) < n && SourceId(p, c) !in stuck then Absent else d.At(p, c)
  {
    var written, size := d.(vault := stored), |Deletions(probe)|;
    DeletesTheFirst(written, Deletions(probe), stuck, n, p, c);
    DeletionsInTurn(probe, p, c, if n < size then n else size);
    assert MayTouch(probe, p, c) ==> Turn(probe, p, c) < size;
    assert written.At(p, c) == d.At(p, c);
  }

  lemma {:induction false} EffectsAre(backend: Backend, probe: bool, stuck: set<SourceId>, d: Disk, n: nat) returns (stored: Stored)
    requires Proceeds(backend, probe, d) && n > 0
    ensures AfterEffects(backend, probe, stuck, d, n) == Delete(d.(vault := stored), Deletions(probe), stuck, n - 1)
  {
    stored := Encoded(Fold(d, probe, Decode(d.vault)));
  }

  /**
   A run that has work to do and dies after `n` effects has deleted exactly the sources whose turn had
   come, except those whose deletion failed.
   */
  lemma {:induction false} CrashLeavesExactly(backend: Backend, probe: bool, stuck: set<SourceId>, d: Disk, d': Disk, n: nat, p: Place, c: Category)
    requires HasSomething(d, probe) && (backend.Keychain? || !d.vault.Garbage?) && n > 0
    requires d' == AfterEffects(backend, probe, stuck, d, n)
    ensures d'.At(p, c) == if MayTouch(probe, p, c) && Turn(probe, p, c) < n - 1 && SourceId(p, c) !in stuck then Absent else d.At(p, c)
  {
    ProceedsIff(backend, probe, d);
    var stored := EffectsAre(backend, probe, stuck, d, n);
    DeletedInTurn(d, d', stored, probe, stuck, n - 1, p, c);
  }
}

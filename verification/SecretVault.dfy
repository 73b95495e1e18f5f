/**
 The consolidated secret vault: one stored item, shared with other processes, behind a
 process-lifetime write-through cache.

 Reading, writing and their failures are inputs: each operation says whether the item could
 be read and written.  Encoding is assumed to be undone by decoding, and one write of the
 item to be atomic.  A mutation is three steps, a read, a write and the update of the cache;
 other processes store whatever they like before, between and after them.  `KeychainVault`
 updates the cache and the item in place; `Next` is the transition function that the theorems
 run.
 */
module SecretVault {
  import opened Options

  // ---------------------------------------------------------------- contents

  /** Which of the blob's four maps a secret lives in. */
  datatype Category = Mcp | Telegram | Channels | Providers

  datatype Secret =
    | OauthRecord(accessToken: string, refreshToken: Option<string>, expiresAt: Option<int>, scope: Option<string>,
                  clientId: string, clientSecret: Option<string>, tokenEndpoint: Option<string>)
    | PlainText(text: string)

  type Secrets = map<string, Secret>

  datatype VaultBlob = VaultBlob(mcp: Secrets, telegram: Secrets, channels: Secrets, providers: Secrets) {
    function Section(c: Category): Secrets {
      match c
      case Mcp => mcp
      case Telegram => telegram
      case Channels => channels
      case Providers => providers
    }

    function WithSection(c: Category, secrets: Secrets): VaultBlob {
      match c
      case Mcp => this.(mcp := secrets)
      case Telegram => this.(telegram := secrets)
      case Channels => this.(channels := secrets)
      case Providers => this.(providers := secrets)
    }

    function Get(c: Category, key: string): Option<Secret> {
      if key in Section(c) then Some(Section(c)[key]) else None
    }
  }

  const EMPTY_BLOB := VaultBlob(map[], map[], map[], map[])

  /** What the backing store holds: nothing, an encoded blob, or text that does not decode. */
  datatype Stored = Missing | Encoded(blob: VaultBlob) | Garbage

  /** The keychain reader's view: a missing or undecodable item is an empty vault. */
  function Decode(stored: Stored): VaultBlob {
    if stored.Encoded? then stored.blob else EMPTY_BLOB
  }

  /** An insertion or a removal of one secret. */
  datatype Update = Put(category: Category, key: string, secret: Secret) | Remove(category: Category, key: string)

  function Apply(u: Update, blob: VaultBlob): VaultBlob {
    match u
    case Put(c, k, s) => blob.WithSection(c, blob.Section(c)[k := s])
    case Remove(c, k) => blob.WithSection(c, blob.Section(c) - {k})
  }

  /** An update sets its own entry and no other. */
  lemma {:induction false} ApplyTouchesOneEntry(u: Update, blob: VaultBlob, c: Category, key: string)
    ensures Apply(u, blob).Get(c, key) ==
              if (c, key) == (u.category, u.key) then (if u.Put? then Some(u.secret) else None) else blob.Get(c, key)
  {
  }

  // ---------------------------------------------------------------- transitions

  /** How far a mutation has come; while there is one, this process's mutex is held. */
  datatype Progress =
    | Idle
    /** The cache is filled, and `base` is the blob that the update is applied to. */
    | Editing(update: Update, base: VaultBlob)
    /** The item has been written, the cache not yet. */
    | Written(blob: VaultBlob)

  /** The shared item together with this process's cache and its running mutation. */
  datatype World = World(item: Stored, cache: Option<VaultBlob>, progress: Progress) {
    /** What this process believes the vault to hold. */
    function View(): VaultBlob {
      cache.GetOr(Decode(item))
    }

    /** The blob that this process has read, or last written, agrees with the item. */
    predicate Coherent() {
      if progress.Written? then Decode(item) == progress.blob
      else (cache.Some? ==> cache.value == Decode(item)) && (progress.Editing? ==> progress.base == Decode(item))
    }
  }

  /** One step: another process stores something, or this process looks something up or goes on with a mutation. */
  datatype Event =
    | External(stored: Stored)
    | Lookup(category: Category, key: string, readable: bool)
    | LookupFresh(category: Category, key: string, readable: bool)
    | Begin(update: Update, readable: bool)
    | Write(writable: bool)
    | Swap

  /** `Blocked` is for an event that has to wait for the mutex, or has no mutation to go on with. */
  datatype Reply = Found(secret: Option<Secret>) | Going | Done | Failed | Blocked

  /** Fills an empty cache from the item; nothing when that takes a read that fails. */
  function Populate(w: World, readable: bool): Option<World> {
    if w.cache.Some? then Some(w)
    else if readable then Some(w.(cache := Some(Decode(w.item))))
    else None
  }

  function Next(w: World, ev: Event): (World, Reply) {
    match ev
    case External(stored) => (w.(item := stored), Done)
    case Lookup(c, k, readable) =>
      if !w.progress.Idle? then (w, Blocked)
      else
        (match Populate(w, readable)
         case None => (w, Failed)
         case Some(p) => (p, Found(p.View().Get(c, k))))
    case LookupFresh(c, k, readable) =>
      if !w.progress.Idle? then (w, Blocked)
      else if readable then
        var p := w.(cache := Some(Decode(w.item)));
        (p, Found(p.View().Get(c, k)))
      else (w, Failed)
    case Begin(u, readable) =>
      if !w.progress.Idle? then (w, Blocked)
      else
        (match Populate(w, readable)
         case None => (w, Failed)
         case Some(p) => (p.(progress := Editing(u, p.View())), Going))
    case Write(writable) =>
      (match w.progress
       case Editing(u, base) =>
         var blob := Apply(u, base);
         if writable then (w.(item := Encoded(blob), progress := Written(blob)), Going) else (w.(progress := Idle), Failed)
       case _ => (w, Blocked))
    case Swap =>
      (match w.progress
       case Written(blob) => (w.(cache := Some(blob), progress := Idle), Done)
       case _ => (w, Blocked))
  }

  /** The last thing that other processes store at some point, if they store anything. */
  function Meddled(w: World, foreign: Option<Stored>): World {
    if foreign.Some? then Next(w, External(foreign.value)).0 else w
  }

  /** A whole mutation, with what other processes store after its read and after its write. */
  function Mutated(w: World, u: Update, readable: bool, writable: bool, afterRead: Option<Stored>, afterWrite: Option<Stored>): (World, Reply)
    requires w.progress.Idle?
  {
    var (begun, reply) := Next(w, Begin(u, readable));
    if reply.Failed? then (begun, Failed)
    else
      var (written, reply') := Next(Meddled(begun, afterRead), Write(writable));
      if reply'.Failed? then (written, Failed) else Next(Meddled(written, afterWrite), Swap)
  }

  // ---------------------------------------------------------------- the imperative vault

  /** The operating system's item. */
  class KeychainItem {
    var stored: Stored

    constructor (stored: Stored)
      ensures this.stored == stored
    {
      this.stored := stored;
    }

    /** A missing item and one that fails to parse read as an empty vault. */
    method ReadBlob(readable: bool) returns (r: Result<VaultBlob, string>)
      ensures r == if readable then Ok(Decode(stored)) else Err("keychain error")
    {
      if !readable {
        return Err("keychain error");
      }
      match stored {
        case Encoded(blob) => return Ok(blob);
        case Missing => return Ok(EMPTY_BLOB);
        case Garbage => return Ok(EMPTY_BLOB);
      }
    }

    method WriteBlob(blob: VaultBlob, writable: bool) returns (ok: bool)
      modifies this
      ensures ok == writable && stored == if writable then Encoded(blob) else old(stored)
    {
      if writable {
        stored := Encoded(blob);
      }
      return writable;
    }

    /** What other processes do meanwhile. */
    method Meddle(foreign: Option<Stored>)
      modifies this
      ensures stored == foreign.GetOr(old(stored))
    {
      if foreign.Some? {
        stored := foreign.value;
      }
    }
  }

  class KeychainVault {
    const item: KeychainItem
    var cache: Option<VaultBlob>

    constructor (item: KeychainItem)
      ensures this.item == item && cache == None
    {
      this.item := item;
      cache := None;
    }

    function Current(): World
      reads this, item
    {
      World(item.stored, cache, Idle)
    }

    method EnsurePopulated(readable: bool) returns (ok: bool)
      modifies this
      ensures item.stored == old(item.stored)
      ensures ok == Populate(old(Current()), readable).Some?
      ensures Current() == Populate(old(Current()), readable).GetOr(old(Current()))
      ensures ok ==> cache.Some?
    {
      if cache.None? {
        var r := item.ReadBlob(readable);
        if r.Err? {
          return false;
        }
        cache := Some(r.value);
      }
      return true;
    }

    method ForceRepopulate(readable: bool) returns (ok: bool)
      modifies this
      ensures item.stored == old(item.stored) && ok == readable
      ensures cache == if readable then Some(Decode(item.stored)) else old(cache)
    {
      var r := item.ReadBlob(readable);
      if r.Err? {
        return false;
      }
      cache := Some(r.value);
      return true;
    }

    method GetField(c: Category, key: string, readable: bool) returns (reply: Reply)
      modifies this
      ensures (Current(), reply) == Next(old(Current()), Lookup(c, key, readable))
    {
      var ok := EnsurePopulated(readable);
      if !ok {
        return Failed;
      }
      return Found(cache.value.Get(c, key));
    }

    method GetFieldFresh(c: Category, key: string, readable: bool) returns (reply: Reply)
      modifies this
      ensures (Current(), reply) == Next(old(Current()), LookupFresh(c, key, readable))
    {
      var ok := ForceRepopulate(readable);
      if !ok {
        return Failed;
      }
      return Found(cache.value.Get(c, key));
    }

    /**
     Updates a clone of the cached blob, stores it, and only then swaps it into the cache.  The mutex
     keeps this process's other calls out, but not the other processes.
     */
    method MutateBlob(u: Update, readable: bool, writable: bool, afterRead: Option<Stored>, afterWrite: Option<Stored>)
      returns (reply: Reply)
      modifies this, item
      ensures (Current(), reply) == Mutated(old(Current()), u, readable, writable, afterRead, afterWrite)
    {
      var ok := EnsurePopulated(readable);
      if !ok {
        return Failed;
      }
      var blob := Apply(u, cache.value);
      item.Meddle(afterRead);
      ok := item.WriteBlob(blob, writable);
      if !ok {
        return Failed;
      }
      item.Meddle(afterWrite);
      cache := Some(blob);
      return Done;
    }
  }

  // ---------------------------------------------------------------- one lookup

  /** Each category has a map of its own, and an item that is missing or does not decode has no entries. */
  lemma {:induction false} EntriesAre(blob: VaultBlob, key: string)
    ensures blob.Get(Mcp, key) == if key in blob.mcp then Some(blob.mcp[key]) else None
    ensures blob.Get(Telegram, key) == if key in blob.telegram then Some(blob.telegram[key]) else None
    ensures blob.Get(Channels, key) == if key in blob.channels then Some(blob.channels[key]) else None
    ensures blob.Get(Providers, key) == if key in blob.providers then Some(blob.providers[key]) else None
    ensures Decode(Encoded(blob)) == blob
    ensures forall c :: Decode(Missing).Get(c, key) == None && Decode(Garbage).Get(c, key) == None
  {
  }

  /**
   Unless a mutation runs, a lookup finds an answer exactly when the cache is filled or the item can
   be read.  A filled cache answers and nothing changes; otherwise the item answers and fills it.
   */
  lemma {:induction false} LookupSucceedsIff(w: World, c: Category, key: string, readable: bool)
    requires w.progress.Idle?
    ensures var (w', reply) := Next(w, Lookup(c, key, readable));
            && (reply.Found? <==> w.cache.Some? || readable)
            && (w.cache.Some? ==> reply == Found(w.cache.value.Get(c, key)) && w' == w)
            && (w.cache.None? && readable ==>
                  reply == Found(Decode(w.item).Get(c, key)) && w' == World(w.item, Some(Decode(w.item)), Idle))
            && (w.cache.None? && !readable ==> reply == Failed && w' == w)
  {
  }

  /** A fresh lookup finds an answer exactly when the item can be read; the item answers and replaces the cache. */
  lemma {:induction false} FreshLookupSucceedsIff(w: World, c: Category, key: string, readable: bool)
    requires w.progress.Idle?
    ensures var (w', reply) := Next(w, LookupFresh(c, key, readable));
            && (reply.Found? <==> readable)
            && (readable ==> reply == Found(Decode(w.item).Get(c, key)) && w' == World(w.item, Some(Decode(w.item)), Idle))
            && (!readable ==> reply == Failed && w' == w)
  {
  }

  // ---------------------------------------------------------------- one mutation

  /** A mutation succeeds exactly when it has or can read a blob to start from and its write goes through. */
  lemma {:induction false} MutationSucceedsIff(w: World, u: Update, readable: bool, writable: bool, afterRead: Option<Stored>, afterWrite: Option<Stored>)
    requires w.progress.Idle?
    ensures var (w', reply) := Mutated(w, u, readable, writable, afterRead, afterWrite);
            && (reply.Done? <==> (w.cache.Some? || readable) && writable)
            && (reply.Failed? <==> !reply.Done?) && w'.progress == Idle
  {
  }

  /** The item holds the update's own entry as the update sets it. */
  predicate HasOwnEntry(u: Update, blob: VaultBlob) {
    blob.Get(u.category, u.key) == if u.Put? then Some(u.secret) else None
  }

  /** Two blobs agree on every entry but the update's own. */
  ghost predicate SameElsewhere(u: Update, a: VaultBlob, b: VaultBlob) {
    forall c, k :: (c, k) != (u.category, u.key) ==> a.Get(c, k) == b.Get(c, k)
  }

  /**
   In any state, the write sets the update's own entry, and it keeps every other entry of the item
   exactly when the blob that was read agrees with the item on them at the moment of the write.
   */
  lemma {:induction false} WriteTouchesOneEntryIff(w: World)
    requires w.progress.Editing?
    ensures var u, w' := w.progress.update, Next(w, Write(true)).0;
            && HasOwnEntry(u, Decode(w'.item)) && w'.Coherent()
            && (SameElsewhere(u, Decode(w'.item), Decode(w.item)) <==> SameElsewhere(u, w.progress.base, Decode(w.item)))
  {
    var u, base := w.progress.update, w.progress.base;
    forall c, k
      ensures Apply(u, base).Get(c, k) ==
                if (c, k) == (u.category, u.key) then (if u.Put? then Some(u.secret) else None) else base.Get(c, k)
    {
      ApplyTouchesOneEntry(u, base, c, k);
    }
  }

  /**
   A whole mutation keeps every other entry that the item had just before the write exactly when
   what this process believed the vault to hold before the mutation agrees with that; so a foreign
   write is lost if it comes before the mutation to a filled cache, or between its read and its write.
   */
  lemma {:induction false} MutateTouchesOneEntryIff(w: World, u: Update, readable: bool, afterRead: Option<Stored>)
    requires w.progress.Idle? && (w.cache.Some? || readable)
    ensures var (w', reply) := Mutated(w, u, readable, true, afterRead, None);
            var before := Decode(afterRead.GetOr(w.item));
            && reply.Done? && w'.Coherent() && w'.cache == Some(Decode(w'.item)) && HasOwnEntry(u, Decode(w'.item))
            && (SameElsewhere(u, Decode(w'.item), before) <==> SameElsewhere(u, w.View(), before))
  {
    WriteTouchesOneEntryIff(Meddled(Next(w, Begin(u, readable)).0, afterRead));
  }

  /**
   A failed mutation stores nothing.  The cache stays the same exactly when it was filled already or
   the item could not be read: a write that fails after a first read leaves that read behind.
   */
  lemma {:induction false} FailedMutateIff(w: World, u: Update, readable: bool, writable: bool, afterRead: Option<Stored>, afterWrite: Option<Stored>)
    requires w.progress.Idle? && Mutated(w, u, readable, writable, afterRead, afterWrite).1.Failed?
    ensures var w' := Mutated(w, u, readable, writable, afterRead, afterWrite).0;
            && w'.item == (if w.cache.Some? || readable then afterRead.GetOr(w.item) else w.item)
            && (w'.cache == w.cache <==> w.cache.Some? || !readable)
            && (w'.cache != w.cache ==> w'.cache == Some(Decode(w.item)))
  {
  }

  /** A failed write fills an empty cache. */
  lemma {:induction false} FailedMutateFillsCache(u: Update)
    ensures Mutated(World(Missing, None, Idle), u, true, false, None, None) == (World(Missing, Some(EMPTY_BLOB), Idle), Failed)
  {
  }

  /** What another process stores when it adds a token to an empty vault. */
  function TokenStored(token: Secret): Stored {
    Encoded(Apply(Put(Mcp, "server", token), EMPTY_BLOB))
  }

  /** Losing an update to a stale cache: this process caches, another one stores a token, this one writes something else. */
  lemma {:induction false} StaleMutateLosesUpdate(token: Secret, other: Secret)
    ensures var cached := Next(World(Missing, None, Idle), Lookup(Mcp, "server", true)).0;
            var rotated := Next(cached, External(TokenStored(token))).0;
            var written := Mutated(rotated, Put(Providers, "openai", other), true, true, None, None).0;
            Decode(rotated.item).Get(Mcp, "server") == Some(token) && Decode(written.item).Get(Mcp, "server") == None
  {
  }

  /** Losing an update without any cache: another process stores a token between this one's read and its write. */
  lemma {:induction false} OvertakenMutateLosesUpdate(token: Secret, other: Secret)
    ensures var begun := Next(World(Missing, None, Idle), Begin(Put(Providers, "openai", other), true)).0;
            var rotated := Next(begun, External(TokenStored(token))).0;
            var written := Next(rotated, Write(true)).0;
            Decode(rotated.item).Get(Mcp, "server") == Some(token) && Decode(written.item).Get(Mcp, "server") == None
  {
  }

  // ---------------------------------------------------------------- runs

  /** The worlds of a run, from the first to the last. */
  function Worlds(w: World, events: seq<Event>): (worlds: seq<World>)
    ensures |worlds| == |events| + 1 && worlds[0] == w
    decreases |events|
  {
    if events == [] then [w] else [w] + Worlds(Next(w, events[0]).0, events[1..])
  }

  lemma {:induction false} WorldsStep(w: World, events: seq<Event>, i: nat)
    requires i < |events|
    ensures Worlds(w, events)[i + 1] == Next(Worlds(w, events)[i], events[i]).0
    decreases i
  {
    if i > 0 {
      WorldsStep(Next(w, events[0]).0, events[1..], i - 1);
    }
  }

  /** The item held `blob` at some moment up to world `n`. */
  ghost predicate WasStored(worlds: seq<World>, n: nat, blob: VaultBlob)
    requires n < |worlds|
  {
    exists i :: 0 <= i <= n && Decode(worlds[i].item) == blob
  }

  /** The cache, the blob a mutation starts from and the blob it has written were all stored at some moment. */
  ghost predicate KnowsThePast(worlds: seq<World>, n: nat)
    requires n < |worlds|
  {
    && (worlds[n].cache.Some? ==> WasStored(worlds, n, worlds[n].cache.value))
    && (worlds[n].progress.Editing? ==> WasStored(worlds, n, worlds[n].progress.base))
    && (worlds[n].progress.Written? ==> WasStored(worlds, n, worlds[n].progress.blob))
  }

  lemma {:induction false} WasStoredLasts(worlds: seq<World>, m: nat, n: nat, blob: VaultBlob)
    requires m <= n < |worlds| && WasStored(worlds, m, blob)
    ensures WasStored(worlds, n, blob)
  {
    var i :| 0 <= i <= m && Decode(worlds[i].item) == blob;
  }

  lemma {:induction false} StepKnowsThePast(worlds: seq<World>, ev: Event, n: nat)
    requires n + 1 < |worlds| && worlds[n + 1] == Next(worlds[n], ev).0 && KnowsThePast(worlds, n)
    ensures KnowsThePast(worlds, n + 1)
  {
    var before, after := worlds[n], worlds[n + 1];
    if before.cache.Some? {
      WasStoredLasts(worlds, n, n + 1, before.cache.value);
    }
    if before.progress.Editing? {
      WasStoredLasts(worlds, n, n + 1, before.progress.base);
    }
    if before.progress.Written? {
      WasStoredLasts(worlds, n, n + 1, before.progress.blob);
    }
    assert Decode(after.item) == Decode(worlds[n + 1].item);
    assert WasStored(worlds, n + 1, Decode(before.item)) && WasStored(worlds, n + 1, Decode(after.item));
  }

  /**
   Whatever other processes do, before, between and after the steps of this one, the cache always
   holds a blob that the item held at some earlier moment, and so does a running mutation.
   */
  lemma {:induction false} CacheWasStored(item: Stored, events: seq<Event>, n: nat)
    requires n <= |events|
    ensures KnowsThePast(Worlds(World(item, None, Idle), events), n)
  {
    if n > 0 {
      CacheWasStored(item, events, n - 1);
      WorldsStep(World(item, None, Idle), events, n - 1);
      StepKnowsThePast(Worlds(World(item, None, Idle), events), events[n - 1], n - 1);
    }
  }

  /**
   A lookup that comes while no mutation runs, with a filled cache or a readable item, is always
   answered, and its answer is one the item would have given at some moment of the run.
   */
  lemma {:induction false} LookupAnswersFromThePast(item: Stored, events: seq<Event>, n: nat)
    requires n < |events| && events[n].Lookup?
    requires var now := Worlds(World(item, None, Idle), events)[n]; now.progress.Idle? && (now.cache.Some? || events[n].readable)
    ensures var worlds := Worlds(World(item, None, Idle), events);
            exists i :: 0 <= i <= n &&
              Next(worlds[n], events[n]).1 == Found(Decode(worlds[i].item).Get(events[n].category, events[n].key))
  {
    var worlds := Worlds(World(item, None, Idle), events);
    CacheWasStored(item, events, n);
    LookupSucceedsIff(worlds[n], events[n].category, events[n].key, events[n].readable);
    if worlds[n].cache.Some? {
      assert WasStored(worlds, n, worlds[n].cache.value);
    } else {
      assert Decode(worlds[n].item) == Next(worlds[n], events[n]).0.View();
    }
  }

  /** Once coherent, the cache and a running mutation stay so until another process stores something. */
  lemma {:induction false} CoherentUntilExternal(w: World, events: seq<Event>, start: nat, n: nat)
    requires start <= n <= |events| && Worlds(w, events)[start].Coherent()
    requires forall i :: start <= i < n ==> !events[i].External?
    ensures Worlds(w, events)[n].Coherent()
    decreases n
  {
    if start < n {
      CoherentUntilExternal(w, events, start, n - 1);
      WorldsStep(w, events, n - 1);
    }
  }

  /** So until then no write of this process loses an entry. */
  lemma {:induction false} NothingIsLostUntilExternal(w: World, events: seq<Event>, start: nat, n: nat)
    requires start <= n < |events| && Worlds(w, events)[start].Coherent()
    requires forall i :: start <= i < n ==> !events[i].External?
    requires events[n] == Write(true) && Worlds(w, events)[n].progress.Editing?
    ensures var now := Worlds(w, events)[n];
            SameElsewhere(now.progress.update, Decode(Next(now, events[n]).0.item), Decode(now.item))
  {
    CoherentUntilExternal(w, events, start, n);
    WriteTouchesOneEntryIff(Worlds(w, events)[n]);
  }

  /** A filled cache is never emptied. */
  lemma {:induction false} CacheStaysFilled(w: World, events: seq<Event>, start: nat, n: nat)
    requires start <= n <= |events| && Worlds(w, events)[start].cache.Some?
    ensures Worlds(w, events)[n].cache.Some?
    decreases n
  {
    if start < n {
      CacheStaysFilled(w, events, start, n - 1);
      WorldsStep(w, events, n - 1);
    }
  }

  /**
   Once a fresh lookup has read the item, and until another process stores something, every lookup
   that does not have to wait for a mutation is answered from the item as it is: a cached one even
   when the item cannot be read, a fresh one when it can.
   */
  lemma {:induction false} FreshLookupRestoresTruth(w: World, events: seq<Event>, f: nat, n: nat)
    requires f <= n < |events| && events[f].LookupFresh? && events[f].readable && Worlds(w, events)[f].progress.Idle?
    requires forall i :: f < i <= n ==> !events[i].External?
    requires events[n].Lookup? || (events[n].LookupFresh? && events[n].readable)
    requires Worlds(w, events)[n].progress.Idle?
    ensures var now := Worlds(w, events)[n];
            Next(now, events[n]).1 == Found(Decode(now.item).Get(events[n].category, events[n].key))
  {
    WorldsStep(w, events, f);
    FreshLookupSucceedsIff(Worlds(w, events)[f], events[f].category, events[f].key, true);
    if f < n {
      CoherentUntilExternal(w, events, f + 1, n);
      CacheStaysFilled(w, events, f + 1, n);
    }
  }

  // ---------------------------------------------------------------- the file backend

  /** The file reader's view: unlike the keychain's, it refuses text that does not decode. */
  function FileLoad(stored: Stored): Option<VaultBlob> {
    if stored.Garbage? then None else Some(Decode(stored))
  }

  /** Load, update and save the vault file; nothing when one of them fails. */
  function FileMutate(stored: Stored, u: Update, writable: bool): Option<Stored> {
    match FileLoad(stored)
    case Some(blob) => if writable then Some(Encoded(Apply(u, blob))) else None
    case None => None
  }

  /** A mutation of the file fails exactly when the file does not decode or cannot be written; a missing one is made. */
  lemma {:induction false} FileMutateSucceedsIff(stored: Stored, u: Update, writable: bool)
    ensures FileMutate(stored, u, writable).Some? <==> writable && !stored.Garbage?
    ensures FileLoad(stored) == match stored
                                case Encoded(blob) => Some(blob)
                                case Missing => Some(VaultBlob(map[], map[], map[], map[]))
                                case Garbage => None
  {
  }

  /** Without a cache in between, a successful update changes exactly its own entry. */
  lemma {:induction false} FileMutateTouchesOneEntry(stored: Stored, u: Update, writable: bool)
    requires FileMutate(stored, u, writable).Some?
    ensures forall c, k :: Decode(FileMutate(stored, u, writable).value).Get(c, k) ==
              if (c, k) == (u.category, u.key) then (if u.Put? then Some(u.secret) else None) else Decode(stored).Get(c, k)
  {
    forall c, k
      ensures Decode(FileMutate(stored, u, writable).value).Get(c, k) ==
                if (c, k) == (u.category, u.key) then (if u.Put? then Some(u.secret) else None) else Decode(stored).Get(c, k)
    {
      ApplyTouchesOneEntry(u, Decode(stored), c, k);
    }
  }
}

/**
 Provider API keys: absorbing plaintext keys from `providers.toml` into the vault, and loading,
 saving and deleting a provider.

 Every operation is given a budget, the number of fallible calls (vault reads and writes, file
 reads and writes) that succeed before one fails.  As an operation stops at its first failure, the
 budgets stand for every place where it can fail or the process can die; a file write that fails
 leaves `torn` behind, whatever that is.
 */
module ProviderKeys {
  import opened Options

  const KNOWN_PROVIDERS: seq<string> := ["anthropic", "openai", "openrouter", "gemini"]

  // ---------------------------------------------------------------- the file, the vault

  type Settings = map<string, string>

  /** A top-level entry of the document: a table, an inline table, or a value of another type. */
  datatype Item = Section(inline: bool, apiKey: Option<string>, settings: Settings) | Scalar {
    predicate IsTable() {
      Section? && !inline
    }
  }

  type Sections = map<string, Item>

  datatype File = Missing | Malformed | Doc(sections: Sections)

  datatype World = World(file: File, vault: map<string, string>)

  /** The part of a loaded configuration that belongs to one provider. */
  datatype Config = Config(apiKey: string, settings: Settings)

  datatype Error = NotFound | Unreadable | UnknownProvider | VaultFailed | WriteFailed

  function Lookup(vault: map<string, string>, name: string): Option<string> {
    if name in vault then Some(vault[name]) else None
  }

  /** A plaintext key where the absorber looks for one: in a table, and not empty. */
  function PlaintextKey(sections: Sections, name: string): Option<string> {
    if name in sections && sections[name].IsTable() && sections[name].apiKey.GetOr("") != "" then sections[name].apiKey else None
  }

  /** The configuration type accepts tables and inline tables. */
  predicate Deserializes(sections: Sections) {
    forall name :: name in KNOWN_PROVIDERS && name in sections ==> !sections[name].Scalar?
  }

  // ---------------------------------------------------------------- absorbing, as a function

  datatype Absorbed = Absorbed(sections: Sections, vault: map<string, string>, budget: nat, changed: bool, failed: bool)

  function Scrubbed(a: Absorbed, name: string, scrub: bool): Absorbed
    requires name in a.sections && a.sections[name].IsTable()
  {
    if scrub then a.(sections := a.sections[name := a.sections[name].(apiKey := None)], changed := true) else a
  }

  function AbsorbOne(a: Absorbed, name: string, scrub: bool): Absorbed {
    match PlaintextKey(a.sections, name)
    case None => a
    case Some(key) =>
      if a.budget == 0 then a.(failed := true)
      else if name in a.vault then Scrubbed(a.(budget := a.budget - 1), name, scrub)
      else if a.budget == 1 then a.(budget := 0, failed := true)
      else Scrubbed(a.(budget := a.budget - 2, vault := a.vault[name := key]), name, scrub)
  }

  function Absorb(a: Absorbed, names: seq<string>, scrub: bool): Absorbed
    decreases |names|
  {
    if names == [] || a.failed then a else Absorb(AbsorbOne(a, names[0], scrub), names[1..], scrub)
  }

  // ---------------------------------------------------------------- the operations, as functions

  function Configured(sections: Sections, vault: map<string, string>): map<string, Config>
    requires Deserializes(sections)
  {
    map name | name in sections && name in KNOWN_PROVIDERS ::
      Config(Lookup(vault, name).GetOr(""), sections[name].settings)
  }

  /** The configuration as parsed from the file, before the keys are filled in. */
  function Parsed(sections: Sections): map<string, Config>
    requires Deserializes(sections)
  {
    map name | name in sections && name in KNOWN_PROVIDERS :: Config(sections[name].apiKey.GetOr(""), sections[name].settings)
  }

  /** The vault reads that filling in the keys of `configured` takes. */
  function KeyReads(configured: set<string>, names: seq<string>): nat {
    if names == [] then 0 else (if names[0] in configured then 1 else 0) + KeyReads(configured, names[1..])
  }

  function AbsorbAll(w: World, scrub: bool, budget: nat): Absorbed
    requires w.file.Doc?
  {
    Absorb(Absorbed(w.file.sections, w.vault, budget, false, false), KNOWN_PROVIDERS, scrub)
  }

  function Loaded(w: World, scrub: bool, budget: nat, torn: File): (World, Result<map<string, Config>, Error>) {
    if w.file.Missing? then (w, Err(NotFound))
    else if budget == 0 || w.file.Malformed? || !Deserializes(w.file.sections) then (w, Err(Unreadable))
    else
      var a := AbsorbAll(w, scrub, budget - 1);
      if a.failed then (World(w.file, a.vault), Err(VaultFailed))
      else if a.changed && a.budget == 0 then (World(torn, a.vault), Err(WriteFailed))
      else
        var file := if a.changed then Doc(a.sections) else w.file;
        var left := if a.changed then a.budget - 1 else a.budget;
        (World(file, a.vault),
         if left < KeyReads(Parsed(w.file.sections).Keys, KNOWN_PROVIDERS) then Err(VaultFailed) else Ok(Configured(w.file.sections, a.vault)))
  }

  /** The provider's section after a save: a table without a key, its other settings merged. */
  function SavedItem(sections: Sections, name: string, settings: Settings): Item {
    Section(false, None, if name in sections && sections[name].IsTable() then sections[name].settings + settings else settings)
  }

  function Saved(w: World, name: string, key: string, settings: Settings, budget: nat, torn: File): (World, Result<(), Error>) {
    if name !in KNOWN_PROVIDERS then (w, Err(UnknownProvider))
    else if budget == 0 then (w, Err(VaultFailed))
    else
      var vault := w.vault[name := key];
      var left := if w.file.Missing? || budget == 1 then budget - 1 else budget - 2;
      if w.file.Malformed? || (!w.file.Missing? && budget == 1) then (World(w.file, vault), Err(Unreadable))
      else if left == 0 then (World(torn, vault), Err(WriteFailed))
      else
        var sections := if w.file.Doc? then w.file.sections else map[];
        (World(Doc(sections[name := SavedItem(sections, name, settings)]), vault), Ok(()))
  }

  function Deleted(w: World, name: string, budget: nat, torn: File): (World, Result<(), Error>) {
    if name !in KNOWN_PROVIDERS then (w, Err(UnknownProvider))
    else if budget == 0 then (w, Err(VaultFailed))
    else
      var vault := w.vault - {name};
      if w.file.Missing? then (World(w.file, vault), Ok(()))
      else if budget == 1 || w.file.Malformed? then (World(w.file, vault), Err(Unreadable))
      else if name !in w.file.sections then (World(w.file, vault), Ok(()))
      else if budget == 2 then (World(torn, vault), Err(WriteFailed))
      else (World(Doc(w.file.sections - {name}), vault), Ok(()))
  }

  function FillOne(cfg: map<string, Config>, vault: map<string, string>, name: string): map<string, Config> {
    if name in cfg then cfg[name := cfg[name].(apiKey := Lookup(vault, name).GetOr(""))] else cfg
  }

  function Filled(cfg: map<string, Config>, vault: map<string, string>, names: seq<string>): map<string, Config>
    decreases |names|
  {
    if names == [] then cfg else Filled(FillOne(cfg, vault, names[0]), vault, names[1..])
  }

  lemma {:induction false} FilledAt(cfg: map<string, Config>, vault: map<string, string>, names: seq<string>, name: string)
    requires name in cfg
    ensures var filled := Filled(cfg, vault, names);
            && filled.Keys == cfg.Keys
            && filled[name] == if name in names then cfg[name].(apiKey := Lookup(vault, name).GetOr("")) else cfg[name]
    decreases |names|
  {
    if names != [] {
      FilledAt(FillOne(cfg, vault, names[0]), vault, names[1..], name);
    }
  }

  lemma {:induction false} FilledIsConfigured(sections: Sections, vault: map<string, string>)
    requires Deserializes(sections)
    ensures Filled(Parsed(sections), vault, KNOWN_PROVIDERS) == Configured(sections, vault)
  {
    var cfg, names := Parsed(sections), KNOWN_PROVIDERS;
    if cfg == map[] {
      FilledEmpty(vault, names);
    }
    forall name | name in cfg
      ensures Filled(cfg, vault, names).Keys == cfg.Keys
      ensures Filled(cfg, vault, names)[name] == cfg[name].(apiKey := Lookup(vault, name).GetOr(""))
    {
      FilledAt(cfg, vault, names, name);
    }
  }

  lemma {:induction false} FilledEmpty(vault: map<string, string>, names: seq<string>)
    ensures Filled(map[], vault, names) == map[]
    decreases |names|
  {
    if names != [] {
      FilledEmpty(vault, names[1..]);
    }
  }

  // ---------------------------------------------------------------- the imperative store

  class ProviderStore {
    var file: File
    var vault: map<string, string>
    var budget: nat
    const scrub: bool

    constructor (file: File, vault: map<string, string>, keychainBacked: bool, budget: nat)
      ensures this.file == file && this.vault == vault && scrub == keychainBacked && this.budget == budget
    {
      this.file, this.vault, scrub, this.budget := file, vault, keychainBacked, budget;
    }

    ghost function Now(): World
      reads this
    {
      World(file, vault)
    }

    /** Whether the next fallible call succeeds. */
    method Spend() returns (ok: bool)
      modifies this`budget
      ensures ok <==> old(budget) > 0
      ensures budget == if ok then old(budget) - 1 else 0
    {
      ok := budget > 0;
      if ok {
        budget := budget - 1;
      }
    }

    /** Puts the provider's plaintext key into the vault, unless the vault has an entry. */
    method AbsorbProvider(sections: Sections, name: string) returns (ok: bool)
      modifies this`vault, this`budget
      ensures forall changed: bool ::
                var a := AbsorbOne(Absorbed(sections, old(vault), old(budget), changed, false), name, false);
                a == Absorbed(sections, vault, budget, changed, !ok)
    {
      match PlaintextKey(sections, name)
      case None => return true;
      case Some(key) =>
        ok := Spend();
        if ok && name !in vault {
          ok := Spend();
          if ok {
            vault := vault[name := key];
          }
        }
    }

    /** The loop over the known providers, editing the document and the vault as it goes. */
    method AbsorbPlaintextApiKeys(sections: Sections) returns (left: Sections, changed: bool, ok: bool)
      modifies this`vault, this`budget
      ensures Absorbed(left, vault, budget, changed, !ok) ==
              Absorb(Absorbed(sections, old(vault), old(budget), false, false), KNOWN_PROVIDERS, scrub)
    {
      left, changed := sections, false;
      ghost var start := Absorbed(sections, vault, budget, false, false);
      var i := 0;
      while i < |KNOWN_PROVIDERS|
        invariant 0 <= i <= |KNOWN_PROVIDERS|
        invariant Absorb(start, KNOWN_PROVIDERS, scrub) ==
                  Absorb(Absorbed(left, vault, budget, changed, false), KNOWN_PROVIDERS[i..], scrub)
      {
        var name := KNOWN_PROVIDERS[i];
        assert KNOWN_PROVIDERS[i..][0] == name && KNOWN_PROVIDERS[i..][1..] == KNOWN_PROVIDERS[i + 1..];
        ghost var before := Absorbed(left, vault, budget, changed, false);
        ok := AbsorbProvider(left, name);
        if !ok {
          return;
        }
        if PlaintextKey(left, name).Some? && scrub {
          left := left[name := left[name].(apiKey := None)];
          changed := true;
        }
        assert Absorbed(left, vault, budget, changed, false) == AbsorbOne(before, name, scrub);
        i := i + 1;
      }
      ok := true;
    }

    method Load(torn: File) returns (r: Result<map<string, Config>, Error>)
      modifies this
      ensures (Now(), r) == Loaded(old(Now()), scrub, old(budget), torn)
    {
      if file.Missing? {
        return Err(NotFound);
      }
      var ok := Spend();
      if !ok || file.Malformed? || !Deserializes(file.sections) {
        return Err(Unreadable);
      }
      var sections := file.sections;
      var left, changed;
      left, changed, ok := AbsorbPlaintextApiKeys(sections);
      if !ok {
        return Err(VaultFailed);
      }
      if changed {
        ok := Spend();
        if !ok {
          file := torn;
          return Err(WriteFailed);
        }
        file := Doc(left);
      }
      var cfg;
      cfg, ok := FillKeys(Parsed(sections), KNOWN_PROVIDERS);
      FilledIsConfigured(sections, vault);
      return if ok then Ok(cfg) else Err(VaultFailed);
    }

    /** Each of `names` that is configured gets its key from the vault; a missing entry gives an empty key. */
    method FillKeys(parsed: map<string, Config>, names: seq<string>) returns (cfg: map<string, Config>, ok: bool)
      modifies this`budget
      ensures ok <==> old(budget) >= KeyReads(parsed.Keys, names)
      ensures ok ==> cfg == Filled(parsed, vault, names)
    {
      cfg := parsed;
      ghost var needed := KeyReads(parsed.Keys, names);
      var i := 0;
      assert names[0..] == names;
      while i < |names|
        invariant 0 <= i <= |names| && cfg.Keys == parsed.Keys
        invariant Filled(parsed, vault, names) == Filled(cfg, vault, names[i..])
        invariant old(budget) - needed == budget - KeyReads(parsed.Keys, names[i..])
      {
        assert names[i..][0] == names[i] && names[i..][1..] == names[i + 1..];
        if names[i] in cfg {
          ok := Spend();
          if !ok {
            return;
          }
          cfg := cfg[names[i] := cfg[names[i]].(apiKey := Lookup(vault, names[i]).GetOr(""))];
        }
        i := i + 1;
      }
      ok := true;
    }

    /** The key goes to the vault first and never to the file. */
    method SaveProvider(name: string, key: string, settings: Settings, torn: File) returns (r: Result<(), Error>)
      modifies this
      ensures (Now(), r) == Saved(old(Now()), name, key, settings, old(budget), torn)
    {
      if name !in KNOWN_PROVIDERS {
        return Err(UnknownProvider);
      }
      var ok := Spend();
      if !ok {
        return Err(VaultFailed);
      }
      vault := vault[name := key];
      var sections: Sections := map[];
      if !file.Missing? {
        ok := Spend();
        if !ok || file.Malformed? {
          return Err(Unreadable);
        }
        sections := file.sections;
      }
      ghost var initial := sections;
      if name !in sections || !sections[name].IsTable() {
        sections := sections[name := Section(false, None, map[])];
      }
      var table := sections[name];
      sections := sections[name := table.(apiKey := None, settings := table.settings + settings)];
      assert map[] + settings == settings;
      assert sections == initial[name := SavedItem(initial, name, settings)];
      ok := Spend();
      if !ok {
        file := torn;
        return Err(WriteFailed);
      }
      file := Doc(sections);
      return Ok(());
    }

    method DeleteProvider(name: string, torn: File) returns (r: Result<(), Error>)
      modifies this
      ensures (Now(), r) == Deleted(old(Now()), name, old(budget), torn)
    {
      if name !in KNOWN_PROVIDERS {
        return Err(UnknownProvider);
      }
      var ok := Spend();
      if !ok {
        return Err(VaultFailed);
      }
      vault := vault - {name};
      if file.Missing? {
        return Ok(());
      }
      ok := Spend();
      if !ok || file.Malformed? {
        return Err(Unreadable);
      }
      if name !in file.sections {
        return Ok(());
      }
      ok := Spend();
      if !ok {
        file := torn;
        return Err(WriteFailed);
      }
      file := Doc(file.sections - {name});
      return Ok(());
    }
  }

  // ---------------------------------------------------------------- what absorbing keeps

  /** `b` is `a` with some table keys removed, each of a provider that has an entry in `vault`. */
  ghost predicate ScrubOf(a: Sections, b: Sections, vault: map<string, string>) {
    && a.Keys == b.Keys
    && forall name :: name in a && b[name] != a[name] ==>
                        a[name].IsTable() && b[name] == a[name].(apiKey := None) && name in vault
  }

  /** Absorbing extends the vault, with plaintext keys of the file, and removes only keys that the vault has. */
  ghost predicate Absorbs(a: Absorbed, b: Absorbed) {
    && (forall name :: name in a.vault ==> name in b.vault && b.vault[name] == a.vault[name])
    && (forall name :: name in b.vault && name !in a.vault ==> PlaintextKey(a.sections, name) == Some(b.vault[name]))
    && ScrubOf(a.sections, b.sections, b.vault)
  }

  lemma {:induction false} AbsorbOneAbsorbs(a: Absorbed, name: string, scrub: bool)
    ensures Absorbs(a, AbsorbOne(a, name, scrub))
  {
  }

  lemma {:induction false} AbsorbsFurther(a: Absorbed, b: Absorbed, c: Absorbed)
    requires Absorbs(a, b) && Absorbs(b, c)
    ensures Absorbs(a, c)
  {
    forall name | name in c.vault && name !in a.vault
      ensures PlaintextKey(a.sections, name) == Some(c.vault[name])
    {
      if name !in b.vault {
        assert PlaintextKey(b.sections, name).Some? && b.sections[name] == a.sections[name];
      }
    }
    forall name | name in a.sections && c.sections[name] != a.sections[name]
      ensures a.sections[name].IsTable() && c.sections[name] == a.sections[name].(apiKey := None) && name in c.vault
    {
      assert b.sections[name] != a.sections[name] || c.sections[name] != b.sections[name];
    }
  }

  lemma {:induction false} AbsorbAbsorbs(a: Absorbed, names: seq<string>, scrub: bool)
    ensures Absorbs(a, Absorb(a, names, scrub))
    decreases |names|
  {
    if names != [] && !a.failed {
      var one := AbsorbOne(a, names[0], scrub);
      AbsorbOneAbsorbs(a, names[0], scrub);
      AbsorbAbsorbs(one, names[1..], scrub);
      AbsorbsFurther(a, one, Absorb(one, names[1..], scrub));
    }
  }

  /** The provider has an entry, and with scrubbing no plaintext key. */
  predicate Covered(a: Absorbed, name: string, scrub: bool) {
    name in a.vault && (scrub ==> PlaintextKey(a.sections, name).None?)
  }

  lemma {:induction false} CoveredStays(a: Absorbed, b: Absorbed, name: string, scrub: bool)
    requires Absorbs(a, b) && Covered(a, name, scrub)
    ensures Covered(b, name, scrub)
  {
  }

  /** When it does not fail, every plaintext key has an entry, and with scrubbing none is left. */
  lemma {:induction false} AbsorbFinishes(a: Absorbed, names: seq<string>, scrub: bool, name: string)
    requires !Absorb(a, names, scrub).failed && name in names && PlaintextKey(a.sections, name).Some?
    ensures Covered(Absorb(a, names, scrub), name, scrub)
    decreases |names|
  {
    var one := AbsorbOne(a, names[0], scrub);
    AbsorbOneAbsorbs(a, names[0], scrub);
    AbsorbAbsorbs(one, names[1..], scrub);
    if name == names[0] || PlaintextKey(one.sections, name).None? {
      assert Covered(one, name, scrub);
      CoveredStays(one, Absorb(one, names[1..], scrub), name, scrub);
    } else {
      AbsorbFinishes(one, names[1..], scrub, name);
    }
  }

  // ---------------------------------------------------------------- no key is lost while loading

  /** The key that the file holds for a provider, wherever it stands in the document. */
  function KeyInFile(file: File, name: string): Option<string> {
    if file.Doc? && name in file.sections && file.sections[name].Section? && file.sections[name].apiKey.GetOr("") != ""
    then file.sections[name].apiKey else None
  }

  /** What the absorber starts from when a load has read the file. */
  function Start(w: World, budget: nat): Absorbed
    requires w.file.Doc? && budget > 0
  {
    Absorbed(w.file.sections, w.vault, budget - 1, false, false)
  }

  lemma {:induction false} LoadAbsorbs(w: World, scrub: bool, budget: nat, torn: File)
    requires w.file.Doc? && budget > 0 && Deserializes(w.file.sections)
    ensures Absorbs(Start(w, budget), AbsorbAll(w, scrub, budget - 1))
    ensures Loaded(w, scrub, budget, torn).0.vault == AbsorbAll(w, scrub, budget - 1).vault
  {
    AbsorbAbsorbs(Start(w, budget), KNOWN_PROVIDERS, scrub);
  }

  /** The fallible calls that absorbing takes: a vault read for each plaintext key, and a write where there is no entry. */
  function AbsorbCalls(sections: Sections, vault: map<string, string>, names: seq<string>): nat {
    if names == [] then 0
    else (if PlaintextKey(sections, names[0]).None? then 0 else if names[0] in vault then 1 else 2) + AbsorbCalls(sections, vault, names[1..])
  }

  /** Some of the providers has a plaintext key in a table. */
  predicate SomePlaintext(sections: Sections, names: seq<string>) {
    names != [] && (PlaintextKey(sections, names[0]).Some? || SomePlaintext(sections, names[1..]))
  }

  /** Absorbing one provider makes no difference to the others. */
  lemma {:induction false} OthersUnaffected(a: Absorbed, name: string, names: seq<string>, scrub: bool)
    requires name !in names
    ensures var one := AbsorbOne(a, name, scrub);
            && AbsorbCalls(one.sections, one.vault, names) == AbsorbCalls(a.sections, a.vault, names)
            && SomePlaintext(one.sections, names) == SomePlaintext(a.sections, names)
  {
    if names != [] {
      OthersUnaffected(a, name, names[1..], scrub);
    }
  }

  /** No name is listed twice. */
  ghost predicate Distinct(names: seq<string>) {
    forall i, j :: 0 <= i < j < |names| ==> names[i] != names[j]
  }

  lemma {:induction false} KnownAreDistinct()
    ensures Distinct(KNOWN_PROVIDERS)
  {
    assert |"anthropic"| == 9 && |"openai"| == 6 && |"openrouter"| == 10 && |"gemini"| == 6;
    assert "openai"[0] != "gemini"[0];
  }

  /** What absorbing spends, when it fails, and when it changes the document. */
  lemma {:induction false} AbsorbSpends(a: Absorbed, names: seq<string>, scrub: bool)
    requires !a.failed && Distinct(names)
    ensures var b, calls := Absorb(a, names, scrub), AbsorbCalls(a.sections, a.vault, names);
            && (b.failed <==> a.budget < calls)
            && (!b.failed ==> b.budget == a.budget - calls && (b.changed <==> a.changed || (scrub && SomePlaintext(a.sections, names))))
    decreases |names|
  {
    if names != [] {
      var one := AbsorbOne(a, names[0], scrub);
      OthersUnaffected(a, names[0], names[1..], scrub);
      if !one.failed {
        AbsorbSpends(one, names[1..], scrub);
      }
    }
  }

  /** The provider's key is no longer where the file had it, and has no entry in the vault. */
  predicate KeyLost(before: World, after: World, name: string) {
    KeyInFile(after.file, name) != KeyInFile(before.file, name) && name !in after.vault
  }

  /** The rewrite of the file is reached, and the budget ends right there. */
  predicate DiesAtRewrite(w: World, scrub: bool, budget: nat)
    requires w.file.Doc?
  {
    && scrub && Deserializes(w.file.sections) && SomePlaintext(w.file.sections, KNOWN_PROVIDERS)
    && budget == 1 + AbsorbCalls(w.file.sections, w.vault, KNOWN_PROVIDERS)
  }

  /** A load that dies at its rewrite leaves `torn`, and no other load does. */
  lemma {:induction false} TornIff(w: World, scrub: bool, budget: nat, torn: File)
    requires w.file.Doc?
    ensures var (w', r) := Loaded(w, scrub, budget, torn);
            if DiesAtRewrite(w, scrub, budget) then w'.file == torn && !AbsorbAll(w, scrub, budget - 1).failed
            else w'.file == w.file || (budget > 0 && Deserializes(w.file.sections) && w'.file == Doc(AbsorbAll(w, scrub, budget - 1).sections))
  {
    if budget > 0 {
      KnownAreDistinct();
      AbsorbSpends(Start(w, budget), KNOWN_PROVIDERS, scrub);
    }
  }

  /** Whether absorbing that finishes gives a provider an entry. */
  lemma {:induction false} EntryAfterAbsorbing(w: World, scrub: bool, budget: nat, name: string)
    requires w.file.Doc? && budget > 0 && name in KNOWN_PROVIDERS && !AbsorbAll(w, scrub, budget - 1).failed
    ensures name in AbsorbAll(w, scrub, budget - 1).vault <==> name in w.vault || PlaintextKey(w.file.sections, name).Some?
  {
    AbsorbAbsorbs(Start(w, budget), KNOWN_PROVIDERS, scrub);
    if PlaintextKey(w.file.sections, name).Some? {
      AbsorbFinishes(Start(w, budget), KNOWN_PROVIDERS, scrub, name);
    }
  }

  /**
   Wherever a load stops, a provider's key is still in the file or has an entry in the vault, except
   when all of this comes together: the key is in an inline table, the vault has no entry for it, a
   plaintext key of some table makes a load with scrubbing rewrite the file, the load dies exactly at
   that rewrite, and what the rewrite leaves behind does not have the key.
   */
  lemma {:induction false} LoadLosesKeyIff(w: World, scrub: bool, budget: nat, torn: File, name: string)
    requires name in KNOWN_PROVIDERS && KeyInFile(w.file, name).Some?
    ensures KeyLost(w, Loaded(w, scrub, budget, torn).0, name) <==>
              && w.file.sections[name].inline && name !in w.vault
              && DiesAtRewrite(w, scrub, budget) && KeyInFile(torn, name) != KeyInFile(w.file, name)
  {
    TornIff(w, scrub, budget, torn);
    if budget > 0 && Deserializes(w.file.sections) {
      LoadAbsorbs(w, scrub, budget, torn);
      if DiesAtRewrite(w, scrub, budget) {
        EntryAfterAbsorbing(w, scrub, budget, name);
      }
    }
  }

  /** A file with a key in a table and a key in an inline table, whose rewrite fails: the second key is gone. */
  lemma {:induction false} InlineKeyIsLost() returns (w: World)
    ensures KeyInFile(w.file, "gemini") == Some("g")
    ensures Loaded(w, true, 3, Malformed).0 == World(Malformed, map["anthropic" := "a"])
    ensures KeyLost(w, Loaded(w, true, 3, Malformed).0, "gemini")
  {
    var sections := map["anthropic" := Section(false, Some("a"), map[]), "gemini" := Section(true, Some("g"), map[])];
    w := World(Doc(sections), map[]);
    var names := KNOWN_PROVIDERS;
    var one := AbsorbOne(Start(w, 3), "anthropic", true);
    assert one.vault == map["anthropic" := "a"] && one.budget == 0 && one.changed;
    assert PlaintextKey(one.sections, "gemini") == None && PlaintextKey(one.sections, "openai") == None;
    assert PlaintextKey(one.sections, "openrouter") == None;
    assert names[1..][1..][1..][1..] == [];
    assert AbsorbAll(w, true, 2) == Absorb(one, names[1..], true) == Absorb(one, names[1..][1..], true)
           == Absorb(one, names[1..][1..][1..], true) == one;
  }

  /** A load adds to the vault only keys that the file holds, and changes no entry. */
  lemma {:induction false} LoadExtendsVault(w: World, scrub: bool, budget: nat, torn: File, name: string)
    ensures var vault := Loaded(w, scrub, budget, torn).0.vault;
            && (name in w.vault ==> Lookup(vault, name) == Lookup(w.vault, name))
            && (name !in w.vault && name in vault ==> KeyInFile(w.file, name) == Some(vault[name]))
  {
    if w.file.Doc? && budget > 0 && Deserializes(w.file.sections) {
      LoadAbsorbs(w, scrub, budget, torn);
    }
  }

  // ---------------------------------------------------------------- what a load returns

  /**
   A successful load gives every configured provider its vault entry, or the plaintext key of its
   table when there was none; a key in an inline table is ignored.
   */
  lemma {:induction false} LoadedKeys(w: World, scrub: bool, budget: nat, torn: File, name: string)
    requires Loaded(w, scrub, budget, torn).1.Ok?
    ensures var cfg := Loaded(w, scrub, budget, torn).1.value;
            && w.file.Doc? && (name in cfg <==> name in KNOWN_PROVIDERS && name in w.file.sections)
            && (name in cfg ==>
                  && cfg[name].apiKey == Lookup(w.vault, name).GetOr(PlaintextKey(w.file.sections, name).GetOr(""))
                  && cfg[name].settings == w.file.sections[name].settings)
  {
    LoadAbsorbs(w, scrub, budget, torn);
    if name in KNOWN_PROVIDERS {
      EntryAfterAbsorbing(w, scrub, budget, name);
    }
  }

  /** The key in the file is the one loaded exactly when the vault agrees, or has no entry and the section is a table. */
  lemma {:induction false} FileKeyIsHonouredIff(w: World, scrub: bool, budget: nat, torn: File, name: string, key: string)
    requires Loaded(w, scrub, budget, torn).1.Ok? && name in KNOWN_PROVIDERS && KeyInFile(w.file, name) == Some(key)
    ensures name in Loaded(w, scrub, budget, torn).1.value
    ensures Loaded(w, scrub, budget, torn).1.value[name].apiKey == key <==>
            if name in w.vault then w.vault[name] == key else !w.file.sections[name].inline
  {
    LoadedKeys(w, scrub, budget, torn, name);
  }

  /** A key written in an inline table is loaded as empty. */
  lemma {:induction false} InlineKeyIsIgnored() returns (w: World)
    ensures KeyInFile(w.file, "gemini") == Some("k") && "gemini" !in w.vault
    ensures var r := Loaded(w, true, 20, Missing).1; r.Ok? && "gemini" in r.value && r.value["gemini"].apiKey == ""
  {
    w := World(Doc(map["gemini" := Section(true, Some("k"), map[])]), map[]);
    var start := Absorbed(w.file.sections, map[], 19, false, false);
    NothingToAbsorb(start, KNOWN_PROVIDERS, true);
    KeyReadsBounded(Parsed(w.file.sections).Keys, KNOWN_PROVIDERS);
    LoadedKeys(w, true, 20, Missing, "gemini");
  }

  lemma {:induction false} KeyReadsBounded(configured: set<string>, names: seq<string>)
    ensures KeyReads(configured, names) <= |names|
  {
    if names != [] {
      KeyReadsBounded(configured, names[1..]);
    }
  }

  // ---------------------------------------------------------------- loading twice

  /** What a finished load leaves: every table key has an entry, and with scrubbing there is none. */
  ghost predicate Settled(sections: Sections, vault: map<string, string>, names: seq<string>, scrub: bool) {
    forall name :: name in names && PlaintextKey(sections, name).Some? ==> name in vault && !scrub
  }

  lemma {:induction false} NothingToAbsorb(a: Absorbed, names: seq<string>, scrub: bool)
    requires Settled(a.sections, a.vault, names, scrub)
    ensures var b := Absorb(a, names, scrub);
            && b.sections == a.sections && b.vault == a.vault && b.changed == a.changed && b.budget <= a.budget
            && (!a.failed && a.budget >= |names| ==> !b.failed && b.budget >= a.budget - |names|)
    decreases |names|
  {
    if names != [] && !a.failed {
      NothingToAbsorb(AbsorbOne(a, names[0], scrub), names[1..], scrub);
    }
  }

  lemma {:induction false} SettledLoad(w: World, scrub: bool, budget: nat, torn: File)
    requires w.file.Doc? && Deserializes(w.file.sections) && Settled(w.file.sections, w.vault, KNOWN_PROVIDERS, scrub)
    ensures Loaded(w, scrub, budget, torn).0 == w
    ensures Loaded(w, scrub, budget, torn).1.Ok? ==> Loaded(w, scrub, budget, torn).1.value == Configured(w.file.sections, w.vault)
    ensures budget > 2 * |KNOWN_PROVIDERS| ==> Loaded(w, scrub, budget, torn).1.Ok?
  {
    if budget > 0 {
      NothingToAbsorb(Absorbed(w.file.sections, w.vault, budget - 1, false, false), KNOWN_PROVIDERS, scrub);
      KeyReadsBounded(Parsed(w.file.sections).Keys, KNOWN_PROVIDERS);
    }
  }

  lemma {:induction false} ScrubKeepsConfiguration(a: Sections, b: Sections, vault: map<string, string>)
    requires ScrubOf(a, b, vault) && Deserializes(a)
    ensures Deserializes(b) && Configured(a, vault) == Configured(b, vault)
  {
    forall name | name in a && name in KNOWN_PROVIDERS
      ensures b[name].Section? && b[name].settings == a[name].settings
    {
      assert !a[name].Scalar?;
    }
  }

  /** Absorbing that reports no change has scrubbed nothing. */
  lemma {:induction false} UnchangedAbsorb(a: Absorbed, names: seq<string>, scrub: bool)
    ensures var b := Absorb(a, names, scrub);
            (a.changed ==> b.changed) && (b.changed && !scrub ==> a.changed) && (!b.changed ==> b.sections == a.sections)
    decreases |names|
  {
    if names != [] && !a.failed {
      UnchangedAbsorb(AbsorbOne(a, names[0], scrub), names[1..], scrub);
    }
  }

  lemma {:induction false} LoadSettles(w: World, scrub: bool, budget: nat, torn: File)
    requires Loaded(w, scrub, budget, torn).1.Ok?
    ensures var w' := Loaded(w, scrub, budget, torn).0;
            && w'.file.Doc? && Deserializes(w'.file.sections)
            && Settled(w'.file.sections, w'.vault, KNOWN_PROVIDERS, scrub)
            && Configured(w'.file.sections, w'.vault) == Loaded(w, scrub, budget, torn).1.value
  {
    var a := AbsorbAll(w, scrub, budget - 1);
    LoadAbsorbs(w, scrub, budget, torn);
    UnchangedAbsorb(Start(w, budget), KNOWN_PROVIDERS, scrub);
    ScrubKeepsConfiguration(w.file.sections, a.sections, a.vault);
    var w' := Loaded(w, scrub, budget, torn).0;
    assert w'.file == Doc(a.sections) && w'.vault == a.vault;
    forall name | name in KNOWN_PROVIDERS && PlaintextKey(a.sections, name).Some?
      ensures name in a.vault && !scrub
    {
      assert PlaintextKey(w.file.sections, name).Some?;
      AbsorbFinishes(Start(w, budget), KNOWN_PROVIDERS, scrub, name);
    }
  }

  /** After a successful load, every further load changes nothing, fail where it may, and agrees when it succeeds. */
  lemma {:induction false} SecondLoadAgrees(w: World, scrub: bool, budget: nat, torn: File, budget2: nat, torn2: File)
    requires Loaded(w, scrub, budget, torn).1.Ok?
    ensures var (w', r) := Loaded(w, scrub, budget, torn);
            var (w'', r') := Loaded(w', scrub, budget2, torn2);
            && w'' == w'
            && (r'.Ok? ==> r' == r)
            && (budget2 > 2 * |KNOWN_PROVIDERS| ==> r'.Ok?)
  {
    LoadSettles(w, scrub, budget, torn);
    SettledLoad(Loaded(w, scrub, budget, torn).0, scrub, budget2, torn2);
  }

  // ---------------------------------------------------------------- runs

  datatype Event =
    | Loads(budget: nat, torn: File)
    | Saves(name: string, key: string, settings: Settings, budget: nat, torn: File)
    | Deletes(name: string, budget: nat, torn: File)
    /** Somebody else rewrites the file. */
    | Edits(file: File)

  function Next(w: World, ev: Event, scrub: bool): World {
    match ev
    case Loads(budget, torn) => Loaded(w, scrub, budget, torn).0
    case Saves(name, key, settings, budget, torn) => Saved(w, name, key, settings, budget, torn).0
    case Deletes(name, budget, torn) => Deleted(w, name, budget, torn).0
    case Edits(file) => w.(file := file)
  }

  function Run(w: World, events: seq<Event>, scrub: bool): World {
    if events == [] then w else Next(Run(w, events[..|events| - 1], scrub), events[|events| - 1], scrub)
  }

  /** A save or delete of the provider that reaches the vault. */
  predicate Sets(ev: Event, name: string) {
    (ev.Saves? || ev.Deletes?) && ev.name == name && ev.budget > 0
  }

  /** What one event does to one vault entry. */
  lemma {:induction false} EntryChangesOnlyBy(w: World, ev: Event, scrub: bool, name: string)
    requires name in KNOWN_PROVIDERS
    ensures var entry, entry' := Lookup(w.vault, name), Lookup(Next(w, ev, scrub).vault, name);
            if Sets(ev, name) then entry' == (if ev.Saves? then Some(ev.key) else None)
            else entry' == entry || (ev.Loads? && entry == None && entry' == KeyInFile(w.file, name))
  {
    if ev.Loads? {
      LoadExtendsVault(w, scrub, ev.budget, ev.torn, name);
    }
  }

  lemma {:induction false} EntryLasts(w: World, events: seq<Event>, scrub: bool, name: string)
    requires name in KNOWN_PROVIDERS && name in w.vault && forall ev :: ev in events ==> !Sets(ev, name)
    ensures Lookup(Run(w, events, scrub).vault, name) == Lookup(w.vault, name)
  {
    if events != [] {
      var before := events[..|events| - 1];
      assert forall ev :: ev in before ==> ev in events;
      EntryLasts(w, before, scrub, name);
      assert events[|events| - 1] in events;
      EntryChangesOnlyBy(Run(w, before, scrub), events[|events| - 1], scrub, name);
    }
  }

  /**
   Once a save has reached the vault, whatever becomes of its file write and whatever is loaded,
   saved, deleted, edited or torn afterwards, every load that succeeds and finds a section for the
   provider yields the saved key, until the next save or delete of that provider.
   */
  lemma {:induction false} SavedKeySticks(w: World, name: string, key: string, settings: Settings, budget: nat, torn: File,
                       events: seq<Event>, scrub: bool, budget2: nat, torn2: File)
    requires name in KNOWN_PROVIDERS && budget > 0 && forall ev :: ev in events ==> !Sets(ev, name)
    ensures var w' := Run(Saved(w, name, key, settings, budget, torn).0, events, scrub);
            var r := Loaded(w', scrub, budget2, torn2).1;
            r.Ok? ==> (name in r.value <==> name in w'.file.sections) && (name in r.value ==> r.value[name].apiKey == key)
  {
    var w1 := Saved(w, name, key, settings, budget, torn).0;
    EntryLasts(w1, events, scrub, name);
    var w' := Run(w1, events, scrub);
    if Loaded(w', scrub, budget2, torn2).1.Ok? {
      LoadedKeys(w', scrub, budget2, torn2, name);
    }
  }

  /**
   A successful save leaves no plaintext key in the provider's section and touches no other one.  Settings that
   it does not name survive in a table, but an inline table is replaced by a fresh one.
   */
  lemma {:induction false} SaveTouchesOneSection(w: World, name: string, key: string, settings: Settings, budget: nat, torn: File, other: string)
    requires Saved(w, name, key, settings, budget, torn).1.Ok?
    ensures var w' := Saved(w, name, key, settings, budget, torn).0;
            && w'.vault == w.vault[name := key]
            && w'.file.Doc? && name in w'.file.sections && KeyInFile(w'.file, name) == None && w'.file.sections[name].IsTable()
            && (var old' := if w.file.Doc? then w.file.sections else map[];
                && (other != name ==> (other in old' <==> other in w'.file.sections)
                                       && (other in old' ==> w'.file.sections[other] == old'[other]))
                && (forall k :: Lookup(w'.file.sections[name].settings, k) ==
                      if k in settings then Some(settings[k])
                      else if name in old' && old'[name].IsTable() then Lookup(old'[name].settings, k) else None))
  {
  }

  // ---------------------------------------------------------------- when an operation succeeds

  /** The providers that the file has a section for, whatever its type. */
  function InFile(sections: Sections): set<string> {
    set name | name in KNOWN_PROVIDERS && name in sections
  }

  lemma {:induction false} KeyReadsCount(configured: set<string>, names: seq<string>)
    requires Distinct(names)
    ensures KeyReads(configured, names) == |set name | name in names && name in configured|
  {
    if names == [] {
      assert (set name | name in names && name in configured) == {};
    } else {
      var all, rest := set name | name in names && name in configured, set name | name in names[1..] && name in configured;
      KeyReadsCount(configured, names[1..]);
      assert names[0] !in rest;
      assert all == rest + if names[0] in configured then {names[0]} else {};
    }
  }

  lemma {:induction false} ConfiguredAreInFile(sections: Sections)
    requires Deserializes(sections)
    ensures KeyReads(Parsed(sections).Keys, KNOWN_PROVIDERS) == |InFile(sections)|
  {
    KnownAreDistinct();
    KeyReadsCount(Parsed(sections).Keys, KNOWN_PROVIDERS);
    assert InFile(sections) == set name | name in KNOWN_PROVIDERS && name in Parsed(sections);
  }

  /**
   A load succeeds exactly when the file can be read and parsed, no provider's entry is a scalar, and
   every call it needs goes through: reading the file, what absorbing takes, a rewrite if a key was
   scrubbed, and one vault read for each provider in the file.
   */
  lemma {:induction false} LoadSucceedsIff(w: World, scrub: bool, budget: nat, torn: File)
    ensures Loaded(w, scrub, budget, torn).1.Ok? <==>
              && w.file.Doc?
              && (forall name :: name in KNOWN_PROVIDERS && name in w.file.sections ==> w.file.sections[name].Section?)
              && budget >= 1 + AbsorbCalls(w.file.sections, w.vault, KNOWN_PROVIDERS)
                           + (if scrub && SomePlaintext(w.file.sections, KNOWN_PROVIDERS) then 1 else 0) + |InFile(w.file.sections)|
    ensures Loaded(w, scrub, budget, torn).1 == Err(NotFound) <==> w.file.Missing?
  {
    if w.file.Doc? && Deserializes(w.file.sections) {
      KnownAreDistinct();
      ConfiguredAreInFile(w.file.sections);
      if budget > 0 {
        AbsorbSpends(Start(w, budget), KNOWN_PROVIDERS, scrub);
      }
    }
  }

  lemma {:induction false} KnownProvidersAre(name: string)
    ensures name in KNOWN_PROVIDERS <==> name == "anthropic" || name == "openai" || name == "openrouter" || name == "gemini"
  {
  }

  /** A save succeeds exactly when the provider is known, an existing file parses, and its two or three calls go through. */
  lemma {:induction false} SaveSucceedsIff(w: World, name: string, key: string, settings: Settings, budget: nat, torn: File)
    ensures Saved(w, name, key, settings, budget, torn).1.Ok? <==>
              name in KNOWN_PROVIDERS && !w.file.Malformed? && budget >= if w.file.Missing? then 2 else 3
  {
  }

  /** A save that fails has stored the key if it got that far, and the file is as before unless its rewrite broke off. */
  lemma {:induction false} FailedSaveLeaves(w: World, name: string, key: string, settings: Settings, budget: nat, torn: File)
    requires Saved(w, name, key, settings, budget, torn).1.Err?
    ensures var w' := Saved(w, name, key, settings, budget, torn).0;
            && w'.vault == (if name in KNOWN_PROVIDERS && budget > 0 then w.vault[name := key] else w.vault)
            && w'.file == if name in KNOWN_PROVIDERS && !w.file.Malformed? && budget == (if w.file.Missing? then 1 else 2) then torn else w.file
  {
  }

  /** A delete succeeds exactly when the provider is known, an existing file parses, and its one to three calls go through. */
  lemma {:induction false} DeleteSucceedsIff(w: World, name: string, budget: nat, torn: File)
    ensures Deleted(w, name, budget, torn).1.Ok? <==>
              && name in KNOWN_PROVIDERS && !w.file.Malformed?
              && budget >= if w.file.Missing? then 1 else if name in w.file.sections then 3 else 2
  {
  }

  /** A successful delete removes the provider's section and its entry, and touches no other section and no other entry. */
  lemma {:induction false} DeleteTouchesOneSection(w: World, name: string, budget: nat, torn: File, other: string)
    requires Deleted(w, name, budget, torn).1.Ok?
    ensures var w' := Deleted(w, name, budget, torn).0;
            && Lookup(w'.vault, other) == (if other == name then None else Lookup(w.vault, other))
            && (w.file.Missing? ==> w'.file == Missing)
            && (!w.file.Missing? ==>
                  && w.file.Doc? && w'.file.Doc?
                  && (other in w'.file.sections <==> other in w.file.sections && other != name)
                  && (other in w'.file.sections ==> w'.file.sections[other] == w.file.sections[other]))
  {
  }

  /** A delete that fails has removed the entry if it got that far, and the file is as before unless its rewrite broke off. */
  lemma {:induction false} FailedDeleteLeaves(w: World, name: string, budget: nat, torn: File)
    requires Deleted(w, name, budget, torn).1.Err?
    ensures var w' := Deleted(w, name, budget, torn).0;
            && w'.vault == (if name in KNOWN_PROVIDERS && budget > 0 then w.vault - {name} else w.vault)
            && w'.file == if name in KNOWN_PROVIDERS && w.file.Doc? && name in w.file.sections && budget == 2 then torn else w.file
  {
  }
}

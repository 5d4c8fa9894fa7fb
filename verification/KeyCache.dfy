// The public key that tokens are verified with: read from Vault, kept for a while,
// replaced by a configured one when Vault does not deliver.
module KeyCache {
  import opened Prelude

  type Key = string                                      // a parsed key, in some canonical form

  datatype Config = Config(useVaultKeys: bool, fallbackHex: string, ttl: int, parse: string -> Option<Key>)

  // What GetSecrets comes to.
  datatype Answer = Error | NoData | NotAMap | Fields(publicKey: Option<string>)

  // What is kept of the last key read: cachedKey and cachedKeyExpiry.
  datatype Cached = Cached(key: Key, expiry: Time)

  function Fallback(c: Config): Option<Key> {
    c.parse(c.fallbackHex)
  }

  function KeyIn(c: Config, answer: Answer): Option<Key> {
    match answer
    case Fields(Some(hex)) => if hex == "" then None else c.parse(hex)
    case _ => None
  }

  // Vault gave a key that parses.
  predicate Usable(c: Config, answer: Answer) {
    answer.Fields? && answer.publicKey.Some? && answer.publicKey.value != "" && c.parse(answer.publicKey.value).Some?
  }

  predicate Valid(cached: Option<Cached>, now: Time) {
    cached.Some? && now < cached.value.expiry
  }

  // One loadKeyFromVault under the lock: looks at the cache when it has the lock,
  // asks Vault, and stores the key when the answer is there.
  datatype Load = Load(cached: Option<Cached>, key: Option<Key>, asked: bool)

  function Loaded(c: Config, cached: Option<Cached>, checkedAt: Time, answer: Answer, storedAt: Time): Load {
    if Valid(cached, checkedAt) then Load(cached, Some(cached.value.key), false)
    else if KeyIn(c, answer).None? then Load(cached, Fallback(c), true)
    else Load(Some(Cached(KeyIn(c, answer).value, storedAt + c.ttl)), KeyIn(c, answer), true)
  }

  class PasetoKeyService {
    const config: Config
    var cachedKey: Option<Key>
    var cachedKeyExpiry: Time
    var vaultCalls: nat                                  // history

    constructor (config: Config)
      ensures this.config == config && TheCache() == None && vaultCalls == 0
    {
      this.config := config;
      cachedKey := None;
      cachedKeyExpiry := 0;
      vaultCalls := 0;
    }

    function TheCache(): Option<Cached>
      reads this
    {
      if cachedKey.None? then None else Some(Cached(cachedKey.value, cachedKeyExpiry))
    }

    method GetPublicKey(readAt: Time, checkedAt: Time, answer: Answer, storedAt: Time) returns (key: Option<Key>)
      modifies this
      ensures !config.useVaultKeys ==>
        key == Fallback(config) && TheCache() == old(TheCache()) && vaultCalls == old(vaultCalls)
      ensures config.useVaultKeys && Valid(old(TheCache()), readAt) ==>
        key == Some(old(TheCache()).value.key) && TheCache() == old(TheCache()) && vaultCalls == old(vaultCalls)
      ensures config.useVaultKeys && !Valid(old(TheCache()), readAt) ==>
        Load(TheCache(), key, vaultCalls != old(vaultCalls))
            == Loaded(config, old(TheCache()), checkedAt, answer, storedAt)
    {
      if !config.useVaultKeys {
        return config.parse(config.fallbackHex);
      }
      if cachedKey.Some? && readAt < cachedKeyExpiry {
        return cachedKey;
      }
      key := LoadKeyFromVault(checkedAt, answer, storedAt);
    }

    method RefreshKey(checkedAt: Time, answer: Answer, storedAt: Time) returns (ok: bool)
      modifies this
      ensures Load(TheCache(), Loaded(config, old(TheCache()), checkedAt, answer, storedAt).key,
        vaultCalls != old(vaultCalls))
           == Loaded(config, old(TheCache()), checkedAt, answer, storedAt)
      ensures ok <==> Loaded(config, old(TheCache()), checkedAt, answer, storedAt).key.Some?
    {
      var key := LoadKeyFromVault(checkedAt, answer, storedAt);
      ok := key.Some?;
    }

    method LoadKeyFromVault(checkedAt: Time, answer: Answer, storedAt: Time) returns (key: Option<Key>)
      modifies this
      ensures Load(TheCache(), key, vaultCalls != old(vaultCalls))
        == Loaded(config, old(TheCache()), checkedAt, answer, storedAt)
      // A key that is still valid is given again; else Vault is asked, and what it
      // answers is kept if it is a key.
      ensures old(cachedKey).Some? && checkedAt < old(cachedKeyExpiry) ==>
        && key == old(cachedKey) && cachedKey == old(cachedKey) && cachedKeyExpiry == old(cachedKeyExpiry)
        && vaultCalls == old(vaultCalls)
      ensures old(cachedKey).None? || checkedAt >= old(cachedKeyExpiry) ==>
        && vaultCalls == old(vaultCalls) + 1
        && if Usable(config, answer) then
             key == config.parse(answer.publicKey.value) && cachedKey == key && cachedKeyExpiry == storedAt + config.ttl
           else
             key == config.parse(config.fallbackHex) && cachedKey == old(cachedKey)
             && cachedKeyExpiry == old(cachedKeyExpiry)
    {
      if cachedKey.Some? && checkedAt < cachedKeyExpiry {
        return cachedKey;
      }
      vaultCalls := vaultCalls + 1;
      var publicKey := if answer.Fields? && answer.publicKey.Some? && answer.publicKey.value != ""
        then config.parse(answer.publicKey.value) else None;
      if publicKey.None? {
        return config.parse(config.fallbackHex);
      }
      cachedKey := publicKey;
      cachedKeyExpiry := storedAt + config.ttl;
      return publicKey;
    }
  }

  /******* Any number of callers *******/

  type Caller = nat

  // GetPublicKey between its look at the cache under the read lock and its load
  // under the write lock, and when it is done. RefreshKey begins at Missed.
  datatype Role = Missed | Returned(key: Option<Key>)

  datatype Stored = Stored(key: Key, at: Time)

  datatype State = State(
    now: Time,
    cached: Option<Cached>,
    callers: map<Caller, Role>,
    stores: seq<Stored>)                                 // history: the keys read from Vault

  datatype Step =
    | Clock
    | Read(a: Caller)
    | Refresh(a: Caller)
    | LoadStep(a: Caller, answer: Answer)

  // Time passes between the steps, and inside a load while Vault is asked.
  predicate Next(c: Config, s: State, s': State, step: Step) {
    s.now <= s'.now &&
    match step
    case Clock => s' == s.(now := s'.now)
    case Read(a) =>
      && a !in s.callers
      && s' == s.(callers := s.callers[a :=
           if !c.useVaultKeys then Returned(Fallback(c))
           else if Valid(s.cached, s.now) then Returned(Some(s.cached.value.key))
           else Missed])
    case Refresh(a) =>
      a !in s.callers && s' == s.(callers := s.callers[a := Missed])
    case LoadStep(a, answer) =>
      && a in s.callers && s.callers[a].Missed?
      && var load := Loaded(c, s.cached, s.now, answer, s'.now);
      && s' == State(s'.now, load.cached, s.callers[a := Returned(load.key)],
                     if load.asked && KeyIn(c, answer).Some?
                       then s.stores + [Stored(KeyIn(c, answer).value, s'.now)] else s.stores)
  }

  ghost predicate Init(s: State) {
    s.cached.None? && s.callers == map[] && s.stores == []
  }

  datatype Run = Run(states: seq<State>, steps: seq<Step>)

  ghost predicate IsRun(c: Config, r: Run) {
    && |r.states| == |r.steps| + 1
    && Init(r.states[0])
    && forall k | 0 <= k < |r.steps| :: Next(c, r.states[k], r.states[k + 1], r.steps[k])
  }

  // The cache holds the key stored last, with its time to live.
  ghost predicate StoresOk(c: Config, s: State) {
    && (s.cached.None? <==> s.stores == [])
    && (s.cached.Some? ==> var last := s.stores[|s.stores| - 1]; s.cached.value == Cached(last.key, last.at + c.ttl))
    && (forall i | 0 <= i < |s.stores| :: s.stores[i].at <= s.now)
    && (forall i | 0 < i < |s.stores| :: s.stores[i].at >= s.stores[i - 1].at + c.ttl)
  }

  ghost predicate CallersOk(c: Config, s: State) {
    forall a | a in s.callers && s.callers[a].Returned? ::
      s.callers[a].key == Fallback(c) || exists i :: 0 <= i < |s.stores| && Some(s.stores[i].key) == s.callers[a].key
  }

  ghost predicate Inv(c: Config, s: State) {
    StoresOk(c, s) && CallersOk(c, s)
  }

  lemma StoresKept(c: Config, s: State, s': State, step: Step)
    requires StoresOk(c, s) && Next(c, s, s', step)
    ensures StoresOk(c, s')
  {
  }

  lemma CallersKept(c: Config, s: State, s': State, step: Step, a: Caller)
    requires Inv(c, s) && Next(c, s, s', step) && a in s'.callers && s'.callers[a].Returned?
    ensures s'.callers[a].key == Fallback(c)
         || exists i :: 0 <= i < |s'.stores| && Some(s'.stores[i].key) == s'.callers[a].key
  {
    assert forall i | 0 <= i < |s.stores| :: s'.stores[i] == s.stores[i];
    if a in s.callers && s.callers[a] == s'.callers[a] {
      if s.callers[a].key != Fallback(c) {
        var i :| 0 <= i < |s.stores| && Some(s.stores[i].key) == s.callers[a].key;
        assert Some(s'.stores[i].key) == s'.callers[a].key;
      }
    } else if s'.callers[a].key != Fallback(c) {
      assert Some(s'.stores[|s'.stores| - 1].key) == s'.callers[a].key;
    }
  }

  lemma InvKept(c: Config, s: State, s': State, step: Step)
    requires Inv(c, s) && Next(c, s, s', step)
    ensures Inv(c, s')
  {
    StoresKept(c, s, s', step);
    forall a | a in s'.callers && s'.callers[a].Returned?
      ensures s'.callers[a].key == Fallback(c)
           || exists i :: 0 <= i < |s'.stores| && Some(s'.stores[i].key) == s'.callers[a].key
    {
      CallersKept(c, s, s', step, a);
    }
  }

  lemma {:induction false} RunInv(c: Config, r: Run, k: nat)
    requires IsRun(c, r) && k < |r.states|
    ensures Inv(c, r.states[k])
    decreases k
  {
    if k > 0 {
      RunInv(c, r, k - 1);
      InvKept(c, r.states[k - 1], r.states[k], r.steps[k - 1]);
    }
  }

  // However callers interleave, two keys are never stored less than the time to
  // live apart: of several callers that miss together one asks Vault with success,
  // and the others find what it stored when they get the lock.
  lemma {:induction false} StoresAreApart(c: Config, r: Run, k: nat, i: nat, j: nat)
    requires IsRun(c, r) && k < |r.states| && i < j < |r.states[k].stores| && c.ttl >= 0
    ensures r.states[k].stores[j].at >= r.states[k].stores[i].at + c.ttl
    decreases j
  {
    RunInv(c, r, k);
    if i < j - 1 {
      StoresAreApart(c, r, k, i, j - 1);
    }
  }

  // Every key stored was in an answer of Vault to a load of this run.
  lemma {:induction false} StoredCameFromVault(c: Config, r: Run, k: nat, i: nat) returns (j: nat)
    requires IsRun(c, r) && k < |r.states| && i < |r.states[k].stores|
    ensures j < k && r.steps[j].LoadStep? && Usable(c, r.steps[j].answer)
    ensures Some(r.states[k].stores[i].key) == c.parse(r.steps[j].answer.publicKey.value)
    ensures r.states[k].stores[i].at == r.states[j + 1].now
    decreases k
  {
    assert k > 0;
    assert Next(c, r.states[k - 1], r.states[k], r.steps[k - 1]);
    if i < |r.states[k - 1].stores| {
      assert r.states[k].stores[i] == r.states[k - 1].stores[i];
      j := StoredCameFromVault(c, r, k - 1, i);
    } else {
      j := k - 1;
    }
  }

  // RefreshKey is documented to force a refresh. Whoever comes to load, by it or by
  // GetPublicKey, has Vault asked exactly if no key was ever stored or the newest
  // has outlived its time; otherwise it is that newest key again, and nothing
  // changes for anybody else.
  lemma RefreshAsksExactlyWhen(c: Config, r: Run, k: nat)
    requires IsRun(c, r) && k < |r.steps| && r.steps[k].LoadStep?
    ensures var s, s', step := r.states[k], r.states[k + 1], r.steps[k];
      var load := Loaded(c, s.cached, s.now, step.answer, s'.now);
      && (load.asked <==> s.stores == [] || s.now >= s.stores[|s.stores| - 1].at + c.ttl)
      && (!load.asked ==>
            s.stores != [] && s'.callers == s.callers[step.a := Returned(Some(s.stores[|s.stores| - 1].key))]
            && s'.cached == s.cached && s'.stores == s.stores)
      && (s'.stores != s.stores <==> load.asked && KeyIn(c, step.answer).Some?)
  {
    RunInv(c, r, k);
    assert Next(c, r.states[k], r.states[k + 1], r.steps[k]);
  }

  // A key that a caller is given is the fallback or one that Vault gave and that
  // was stored; at that moment it was the newest of these and less than its time to
  // live old, unless the caller has just read it itself.
  lemma GivenKeyIsCurrent(c: Config, r: Run, k: nat, a: Caller)
    requires IsRun(c, r) && k < |r.steps| && a in r.states[k + 1].callers && r.states[k + 1].callers[a].Returned?
    requires a !in r.states[k].callers || r.states[k].callers[a].Missed?
    ensures var s, s', key := r.states[k], r.states[k + 1], r.states[k + 1].callers[a].key;
      || key == Fallback(c)
      || (&& s'.stores != [] && key == Some(s'.stores[|s'.stores| - 1].key)
          && (s.now < s'.stores[|s'.stores| - 1].at + c.ttl || s'.stores != s.stores))
  {
    RunInv(c, r, k);
    assert Next(c, r.states[k], r.states[k + 1], r.steps[k]);
  }

  // The fallback is used only when Vault is switched off, or was asked and did not
  // deliver; and then the cache is left alone.
  lemma FallbackExactlyWhen(c: Config, s: State, s': State, step: Step, a: Caller)
    requires Next(c, s, s', step) && a in s'.callers && s'.callers[a].Returned?
    requires a !in s.callers || s.callers[a].Missed?
    requires Inv(c, s) && forall i | 0 <= i < |s'.stores| :: Some(s'.stores[i].key) != Fallback(c)
    ensures s'.callers[a].key == Fallback(c) <==>
      || (step.Read? && !c.useVaultKeys)
      || (step.LoadStep? && !Valid(s.cached, s.now) && KeyIn(c, step.answer).None?)
    ensures s'.callers[a].key == Fallback(c) ==> s'.cached == s.cached
  {
    assert forall i | 0 <= i < |s.stores| :: s'.stores[i] == s.stores[i];
    assert s'.cached.Some? && s'.stores != [] ==> s'.cached.value.key == s'.stores[|s'.stores| - 1].key by {
      InvKept(c, s, s', step);
    }
  }
}

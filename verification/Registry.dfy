/**
  The session table of src/mb-session.c: sessions owned by a path index and
  found through a second index by address. Sessions are handles into `sessions`,
  the objects that are alive; a freed session is one that has left that map.
 */
module Registry {

  type Handle = nat

  /** An absent address, as the source keeps it, is the empty string. */
  datatype Identity = Identity(path: string, address: string, name: string)

  datatype Table = Table(
    byPath: map<string, Handle>, byAddress: map<string, Handle>, sessions: map<Handle, Identity>, next: Handle)

  const EMPTY := Table(map[], map[], map[], 0)

  /** Both indices hold the live sessions, each under its current keys and no other. */
  ghost predicate Agree(t: Table) {
    && (forall p | p in t.byPath ::
          p != "" && t.byPath[p] in t.sessions && t.sessions[t.byPath[p]].path == p)
    && (forall a | a in t.byAddress ::
          a != "" && t.byAddress[a] in t.sessions && t.sessions[t.byAddress[a]].address == a)
    && (forall s | s in t.sessions ::
          && t.sessions[s].path in t.byPath && t.byPath[t.sessions[s].path] == s
          && (t.sessions[s].address != "" ==>
                t.sessions[s].address in t.byAddress && t.byAddress[t.sessions[s].address] == s))
    && (forall s | s in t.sessions :: s < t.next)
  }

  /** The session known by `address` is asked to take over a path that belongs to a session of another address. */
  predicate Clash(t: Table, path: string, address: string)
    requires Agree(t)
  {
    && address in t.byAddress && path in t.byPath
    && t.byPath[path] != t.byAddress[address]
    && t.sessions[t.byPath[path]].address != ""
  }

  // ---- the calls as functions on tables ----

  /** Session `s` becomes the one behind `path`; whoever was there is freed. */
  function TakePath(t: Table, s: Handle, path: string): Table {
    if path in t.byPath && t.byPath[path] != s then
      t.(byPath := t.byPath[path := s], sessions := t.sessions - {t.byPath[path]})
    else
      t.(byPath := t.byPath[path := s])
  }

  function Readdress(t: Table, s: Handle, from: string, to: string): Table {
    var cleared := t.byAddress - {from};
    t.(byAddress := if to == "" then cleared else cleared[to := s])
  }

  function EnsureKnown(t: Table, s: Handle, path: string, address: string, name: string): Table
    requires s in t.sessions
  {
    var was := t.sessions[s];
    var renamed := t.(sessions := t.sessions[s := Identity(path, address, name)],
                      byPath := if was.path != path && was.path in t.byPath && t.byPath[was.path] == s
                                then t.byPath - {was.path} else t.byPath);
    Readdress(TakePath(renamed, s, path), s, was.address, address)
  }

  function EnsureAtPath(t: Table, s: Handle, path: string, address: string, name: string): Table
    requires s in t.sessions
  {
    Readdress(t.(sessions := t.sessions[s := Identity(path, address, name)]), s, t.sessions[s].address, address)
  }

  function EnsureNew(t: Table, path: string, address: string, name: string): Table {
    Table(t.byPath[path := t.next],
          if address == "" then t.byAddress else t.byAddress[address := t.next],
          t.sessions[t.next := Identity(path, address, name)], t.next + 1)
  }

  function Ensured(t: Table, path: string, address: string, name: string): Table
    requires Agree(t)
  {
    if address in t.byAddress then EnsureKnown(t, t.byAddress[address], path, address, name)
    else if path in t.byPath then EnsureAtPath(t, t.byPath[path], path, address, name)
    else EnsureNew(t, path, address, name)
  }

  function EnsuredHandle(t: Table, path: string, address: string): Handle {
    if address in t.byAddress then t.byAddress[address]
    else if path in t.byPath then t.byPath[path]
    else t.next
  }

  function Removed(t: Table, path: string): Table
    requires Agree(t)
  {
    if path !in t.byPath then t
    else
      var s := t.byPath[path];
      t.(byPath := t.byPath - {path}, byAddress := t.byAddress - {t.sessions[s].address}, sessions := t.sessions - {s})
  }

  // ---- the object ----

  class SessionTable {
    var byPath: map<string, Handle>
    var byAddress: map<string, Handle>
    var sessions: map<Handle, Identity>
    var next: Handle

    ghost function Value(): Table
      reads this
    {
      Table(byPath, byAddress, sessions, next)
    }

    constructor ()
      ensures Value() == EMPTY
    {
      byPath, byAddress, sessions, next := map[], map[], map[], 0;
    }

    /** Takes `path` out of the index if it leads to `expected`, without freeing the session. */
    method StealPathIndex(path: string, expected: Handle)
      requires "" !in byPath
      modifies this`byPath
      ensures byPath == if path in old(byPath) && old(byPath)[path] == expected then old(byPath) - {path}
                        else old(byPath)
    {
      if path == "" || path !in byPath {
        return;
      }
      if byPath[path] != expected {
        return;
      }
      byPath := byPath - {path};
    }

    /** Puts `s` behind `path`; a different session found there is freed by the index. */
    method ReplacePath(path: string, s: Handle)
      modifies this
      ensures Value() == TakePath(old(Value()), s, path)
    {
      if path in byPath && byPath[path] != s {
        sessions := sessions - {byPath[path]};
      }
      byPath := byPath[path := s];
    }

    method ReindexDevicePath(s: Handle, oldPath: string)
      requires s in sessions && sessions[s].path != ""
      requires "" !in byPath
      modifies this
      ensures var t := old(Value());
              var left := oldPath != t.sessions[s].path && oldPath in t.byPath && t.byPath[oldPath] == s;
              Value() == TakePath(t.(byPath := if left then t.byPath - {oldPath} else t.byPath), s, t.sessions[s].path)
    {
      var path := sessions[s].path;
      if oldPath != "" && oldPath != path {
        StealPathIndex(oldPath, s);
      }
      if path in byPath && byPath[path] == s {
        assert byPath[path := s] == byPath;
        return;
      }
      ReplacePath(path, s);
    }

    method ReindexAddress(s: Handle, oldAddress: string)
      requires s in sessions && "" !in byAddress
      modifies this`byAddress
      ensures Value() == Readdress(old(Value()), s, oldAddress, sessions[s].address)
    {
      if oldAddress != "" {
        byAddress := byAddress - {oldAddress};
      }
      if sessions[s].address != "" {
        byAddress := byAddress[sessions[s].address := s];
      }
    }

    method EnsureByAddress(s: Handle, path: string, address: string, name: string)
      requires Agree(Value()) && s in sessions && path != ""
      modifies this
      ensures Value() == EnsureKnown(old(Value()), s, path, address, name)
    {
      var oldPath, oldAddress := sessions[s].path, sessions[s].address;
      sessions := sessions[s := Identity(path, address, name)];
      ReindexDevicePath(s, oldPath);
      ReindexAddress(s, oldAddress);
    }

    method EnsureByPath(s: Handle, path: string, address: string, name: string)
      requires Agree(Value()) && s in sessions
      modifies this
      ensures Value() == EnsureAtPath(old(Value()), s, path, address, name)
    {
      var oldAddress := sessions[s].address;
      sessions := sessions[s := Identity(path, address, name)];
      ReindexAddress(s, oldAddress);
    }

    method EnsureSession(path: string, address: string, name: string) returns (found: bool, s: Handle)
      requires Agree(Value())
      modifies this
      ensures found <==> path != ""
      ensures found ==> s == EnsuredHandle(old(Value()), path, address)
      ensures Value() == if found then Ensured(old(Value()), path, address, name) else old(Value())
      ensures Agree(Value()) <==> !found || !Clash(old(Value()), path, address)
      ensures found && !Clash(old(Value()), path, address) ==> FoundUnder(Value(), s, path, address, name)
    {
      if path == "" {
        return false, 0;
      }
      EnsureKeepsAgreement(Value(), path, address, name);
      if !Clash(Value(), path, address) {
        EnsureMeans(Value(), path, address, name);
      }
      found := true;
      if address != "" && address in byAddress {
        s := byAddress[address];
        EnsureByAddress(s, path, address, name);
        return;
      }
      if path in byPath {
        s := byPath[path];
        EnsureByPath(s, path, address, name);
        return;
      }
      s := next;
      next := next + 1;
      sessions := sessions[s := Identity(path, address, name)];
      byPath := byPath[path := s];
      if address != "" {
        byAddress := byAddress[address := s];
      }
    }

    method RemoveSessionByDevicePath(path: string) returns (ok: bool)
      requires Agree(Value())
      modifies this
      ensures Agree(Value()) && Value() == Removed(old(Value()), path)
      ensures ok <==> path in old(byPath)
    {
      RemoveKeepsAgreement(Value(), path);
      if path !in byPath {
        return false;
      }
      var s := byPath[path];
      if sessions[s].address != "" {
        byAddress := byAddress - {sessions[s].address};
      } else {
        assert byAddress - {""} == byAddress;
      }
      byPath := byPath - {path};
      sessions := sessions - {s};
      ok := true;
    }
  }

  // ---- agreement ----

  lemma KnownKeepsAgreement(t: Table, path: string, address: string, name: string)
    requires Agree(t) && path != "" && address in t.byAddress && !Clash(t, path, address)
    ensures Agree(Ensured(t, path, address, name))
  {
  }

  lemma PathKeepsAgreement(t: Table, path: string, address: string, name: string)
    requires Agree(t) && path != "" && address !in t.byAddress && path in t.byPath
    ensures Agree(Ensured(t, path, address, name))
  {
  }

  lemma NewKeepsAgreement(t: Table, path: string, address: string, name: string)
    requires Agree(t) && path != "" && address !in t.byAddress && path !in t.byPath
    ensures Agree(Ensured(t, path, address, name))
  {
  }

  lemma {:induction false} KnownMeans(t: Table, path: string, address: string, name: string)
    requires Agree(t) && path != "" && address in t.byAddress && !Clash(t, path, address)
    requires Agree(Ensured(t, path, address, name))
    ensures SessionsMean(t, path, address, name)
  {
  }

  lemma {:induction false} PathMeans(t: Table, path: string, address: string, name: string)
    requires Agree(t) && path != "" && address !in t.byAddress && path in t.byPath
    requires Agree(Ensured(t, path, address, name))
    ensures SessionsMean(t, path, address, name)
  {
  }

  lemma {:induction false} NewMeans(t: Table, path: string, address: string, name: string)
    requires Agree(t) && path != "" && address !in t.byAddress && path !in t.byPath
    requires Agree(Ensured(t, path, address, name))
    ensures SessionsMean(t, path, address, name)
  {
  }

  /** The session returned has the identity asked for, and only a displaced one has gone. */
  ghost predicate SessionsMean(t: Table, path: string, address: string, name: string)
    requires Agree(t)
  {
    var u, s := Ensured(t, path, address, name), EnsuredHandle(t, path, address);
    && s in u.sessions && u.sessions[s] == Identity(path, address, name)
    && (forall h | h != s :: h in u.sessions <==> h in t.sessions && !Displaced(t, path, address, h))
    && (forall h | h != s && h in u.sessions :: u.sessions[h] == t.sessions[h])
  }

  /** After a clash the address index leads to a freed session. */
  lemma ClashDangles(t: Table, path: string, address: string, name: string)
    requires Agree(t) && path != "" && Clash(t, path, address)
    ensures var gone := t.byPath[path]; var t' := Ensured(t, path, address, name);
            && gone !in t'.sessions
            && t.sessions[gone].address in t'.byAddress && t'.byAddress[t.sessions[gone].address] == gone
    ensures !Agree(Ensured(t, path, address, name))
  {
    var gone := t.byPath[path];
    var a := t.sessions[gone].address;
    assert a != address;
    assert t.sessions[t.byAddress[address]].address == address;
    var t' := Ensured(t, path, address, name);
    assert a in t'.byAddress && t'.byAddress[a] == gone;
  }

  /** Two devices and then the first address at the second path: the second address leads to a freed session. */
  lemma ClashFromEmpty()
    ensures Agree(EMPTY)
    ensures var one := Ensured(EMPTY, "p1", "a1", "");
            && Agree(one)
            && var two := Ensured(one, "p2", "a2", "");
               && Agree(two)
               && var three := Ensured(two, "p2", "a1", "");
                  && !Agree(three)
                  && "a2" in three.byAddress && three.byAddress["a2"] !in three.sessions
  {
    NewKeepsAgreement(EMPTY, "p1", "a1", "");
    var one := Ensured(EMPTY, "p1", "a1", "");
    NewKeepsAgreement(one, "p2", "a2", "");
    var two := Ensured(one, "p2", "a2", "");
    assert two.byPath["p2"] == 1 && two.byAddress["a1"] == 0 && two.sessions[1].address == "a2";
    ClashDangles(two, "p2", "a1", "");
  }

  /** A call keeps the indices in agreement exactly when it is not a clash. */
  lemma EnsureKeepsAgreement(t: Table, path: string, address: string, name: string)
    requires Agree(t) && path != ""
    ensures Agree(Ensured(t, path, address, name)) <==> !Clash(t, path, address)
  {
    if address in t.byAddress {
      if Clash(t, path, address) {
        ClashDangles(t, path, address, name);
      } else {
        KnownKeepsAgreement(t, path, address, name);
      }
    } else if path in t.byPath {
      PathKeepsAgreement(t, path, address, name);
    } else {
      NewKeepsAgreement(t, path, address, name);
    }
  }

  lemma RemoveKeepsAgreement(t: Table, path: string)
    requires Agree(t)
    ensures Agree(Removed(t, path))
  {
  }

  // ---- what the calls mean for the live sessions ----

  /** The session that a call takes its path from. */
  ghost predicate Displaced(t: Table, path: string, address: string, h: Handle) {
    address in t.byAddress && path in t.byPath && t.byPath[path] == h && h != t.byAddress[address]
  }

  /**
    A call that is no clash gives the session returned exactly the identity asked
    for, found under path and address; its old keys are gone, a session displaced
    from the path is no longer alive, and no other session or key has changed.
   */
  lemma {:induction false} EnsureMeans(t: Table, path: string, address: string, name: string)
    requires Agree(t) && path != "" && !Clash(t, path, address)
    ensures var u, s := Ensured(t, path, address, name), EnsuredHandle(t, path, address);
            && Agree(u) && s in u.sessions && u.sessions[s] == Identity(path, address, name)
            && path in u.byPath && u.byPath[path] == s && (address != "" ==> Knows(u, address, s))
            && (s in t.sessions ==> && (t.sessions[s].path != path ==> t.sessions[s].path !in u.byPath)
                                    && (t.sessions[s].address != address ==> t.sessions[s].address !in u.byAddress))
            && (forall h | h != s :: h in u.sessions <==> h in t.sessions && !Displaced(t, path, address, h))
            && (forall h | h != s && h in u.sessions :: u.sessions[h] == t.sessions[h])
  {
    EnsureKeepsAgreement(t, path, address, name);
    if address in t.byAddress {
      KnownMeans(t, path, address, name);
    } else if path in t.byPath {
      PathMeans(t, path, address, name);
    } else {
      NewMeans(t, path, address, name);
    }
  }

  /** Every key but the new and the old ones leads where it led. */
  lemma {:induction false} OtherKeysStay(t: Table, path: string, address: string, name: string, key: string)
    requires Agree(t) && path != "" && !Clash(t, path, address)
    ensures var u, s := Ensured(t, path, address, name), EnsuredHandle(t, path, address);
            && (key != path && (s in t.sessions ==> key != t.sessions[s].path) ==>
                  (key in u.byPath <==> key in t.byPath) && (key in t.byPath ==> u.byPath[key] == t.byPath[key]))
            && (key != address && (s in t.sessions ==> key != t.sessions[s].address) ==>
                  && (key in u.byAddress <==> key in t.byAddress)
                  && (key in t.byAddress ==> u.byAddress[key] == t.byAddress[key]))
  {
  }

  /** The session returned: known by the address, or else by the path, or else a new one. */
  lemma EnsureReturns(t: Table, path: string, address: string)
    requires Agree(t)
    ensures var s := EnsuredHandle(t, path, address);
            && (forall h | h in t.sessions && address != "" && t.sessions[h].address == address :: s == h)
            && (forall h | h in t.sessions && t.sessions[h].path == path && address !in t.byAddress :: s == h)
            && (s in t.sessions ==> (address != "" && t.sessions[s].address == address) || t.sessions[s].path == path)
  {
  }

  /** A removal takes out the session of that path and changes no other. */
  lemma RemoveMeans(t: Table, path: string)
    requires Agree(t)
    ensures var u := Removed(t, path);
            && Agree(u) && path !in u.byPath
            && (forall h :: h in u.sessions <==> h in t.sessions && t.sessions[h].path != path)
            && (forall h | h in u.sessions :: u.sessions[h] == t.sessions[h])
  {
    RemoveKeepsAgreement(t, path);
  }

  // ---- sequences of calls ----

  datatype Call = Ensure(path: string, address: string, name: string) | Remove(path: string)

  function Apply(t: Table, c: Call): Table
    requires Agree(t)
  {
    match c
    case Ensure(path, address, name) => if path == "" then t else Ensured(t, path, address, name)
    case Remove(path) => Removed(t, path)
  }

  ghost predicate Harmless(t: Table, c: Call)
    requires Agree(t)
  {
    c.Ensure? && c.path != "" ==> !Clash(t, c.path, c.address)
  }

  /** No call of the sequence is a clash. */
  ghost predicate AllHarmless(t: Table, calls: seq<Call>)
    requires Agree(t)
    decreases |calls|
  {
    calls != [] ==> Harmless(t, calls[0]) && (HarmlessKeeps(t, calls[0]); AllHarmless(Apply(t, calls[0]), calls[1..]))
  }

  lemma HarmlessKeeps(t: Table, c: Call)
    requires Agree(t) && Harmless(t, c)
    ensures Agree(Apply(t, c))
  {
    if c.Ensure? && c.path != "" {
      EnsureKeepsAgreement(t, c.path, c.address, c.name);
    } else if c.Remove? {
      RemoveKeepsAgreement(t, c.path);
    }
  }

  function ApplyAll(t: Table, calls: seq<Call>): Table
    requires Agree(t) && AllHarmless(t, calls)
    decreases |calls|
  {
    if calls == [] then t
    else
      HarmlessKeeps(t, calls[0]);
      ApplyAll(Apply(t, calls[0]), calls[1..])
  }

  /** Over any sequence of calls without a clash, both indices hold the same live sessions under their current keys. */
  lemma {:induction false} EveryRunAgrees(t: Table, calls: seq<Call>)
    requires Agree(t) && AllHarmless(t, calls)
    ensures Agree(ApplyAll(t, calls))
    decreases |calls|
  {
    if calls != [] {
      HarmlessKeeps(t, calls[0]);
      EveryRunAgrees(Apply(t, calls[0]), calls[1..]);
    }
  }

  // ---- identity ----

  ghost predicate Knows(t: Table, address: string, s: Handle) {
    address in t.byAddress && t.byAddress[address] == s
  }

  /** A call that ends a session or gives it another address. */
  ghost predicate Detaches(t: Table, c: Call, s: Handle)
    requires Agree(t) && s in t.sessions
  {
    match c
    case Remove(path) => path == t.sessions[s].path
    case Ensure(path, address, _) => path == t.sessions[s].path && address !in t.byAddress
  }

  lemma EnsureMakesKnown(t: Table, path: string, address: string, name: string)
    requires Agree(t) && path != "" && address != ""
    ensures Knows(Ensured(t, path, address, name), address, EnsuredHandle(t, path, address))
  {
  }

  lemma CallKeepsKnowing(t: Table, c: Call, address: string, s: Handle)
    requires Agree(t) && Harmless(t, c) && Knows(t, address, s) && !Detaches(t, c, s)
    ensures Knows(Apply(t, c), address, s)
  {
    if c.Ensure? && c.path != "" {
      if c.address in t.byAddress {
      } else if c.path in t.byPath {
        assert t.byPath[c.path] != s;
        assert t.sessions[t.byPath[c.path]].address != address;
      }
    }
  }

  ghost predicate NoneDetaches(t: Table, calls: seq<Call>, s: Handle)
    requires Agree(t) && AllHarmless(t, calls) && s in t.sessions
    decreases |calls|
  {
    calls != [] ==>
      && !Detaches(t, calls[0], s)
      && (HarmlessKeeps(t, calls[0]);
          s in Apply(t, calls[0]).sessions ==> NoneDetaches(Apply(t, calls[0]), calls[1..], s))
  }

  /**
    Repeating an address returns the same object: after any harmless calls that do
    not remove or readdress it, under whatever path it is asked for.
   */
  lemma {:induction false} SameAddressSameSession(t: Table, calls: seq<Call>, address: string, s: Handle, path: string)
    requires Agree(t) && AllHarmless(t, calls) && Knows(t, address, s) && NoneDetaches(t, calls, s)
    ensures EnsuredHandle(ApplyAll(t, calls), path, address) == s
    decreases |calls|
  {
    if calls != [] {
      HarmlessKeeps(t, calls[0]);
      CallKeepsKnowing(t, calls[0], address, s);
      SameAddressSameSession(Apply(t, calls[0]), calls[1..], address, s, path);
    }
  }

  /** After a first call for an address, harmless calls that neither remove nor readdress the session it returned. */
  ghost predicate LeftAlone(t: Table, path: string, address: string, name: string, calls: seq<Call>)
    requires Agree(t) && path != "" && address != "" && !Clash(t, path, address)
  {
    EnsureKeepsAgreement(t, path, address, name);
    EnsureMakesKnown(t, path, address, name);
    var first := Ensured(t, path, address, name);
    AllHarmless(first, calls) && NoneDetaches(first, calls, EnsuredHandle(t, path, address))
  }

  /**
    Asking twice for an address returns the same session, under whatever path: after
    any first call that is no clash and any calls that leave its session alone.
   */
  lemma {:induction false} EnsureTwiceSameSession(t: Table, path: string, address: string, name: string,
                                                  calls: seq<Call>, later: string)
    requires Agree(t) && path != "" && address != "" && !Clash(t, path, address)
    requires LeftAlone(t, path, address, name, calls)
    ensures var first := Ensured(t, path, address, name);
            && Agree(first) && AllHarmless(first, calls)
            && EnsuredHandle(ApplyAll(first, calls), later, address) == EnsuredHandle(t, path, address)
  {
    EnsureKeepsAgreement(t, path, address, name);
    EnsureMakesKnown(t, path, address, name);
    SameAddressSameSession(Ensured(t, path, address, name), calls, address, EnsuredHandle(t, path, address), later);
  }

  // ---- the last path asked for ----

  /** The call names neither the path nor the address. */
  predicate Elsewhere(c: Call, path: string, address: string) {
    c.path != path && (c.Ensure? && address != "" ==> c.address != address)
  }

  /** The session is alive with this identity, and found by path and address. */
  ghost predicate FoundUnder(t: Table, s: Handle, path: string, address: string, name: string) {
    && s in t.sessions && t.sessions[s] == Identity(path, address, name)
    && path in t.byPath && t.byPath[path] == s && (address != "" ==> Knows(t, address, s))
  }

  lemma {:induction false} ElsewhereKeeps(t: Table, c: Call, s: Handle, path: string, address: string, name: string)
    requires Agree(t) && Harmless(t, c) && FoundUnder(t, s, path, address, name) && Elsewhere(c, path, address)
    ensures Agree(Apply(t, c)) && FoundUnder(Apply(t, c), s, path, address, name)
  {
    match c
    case Remove(p) => RemoveMeans(t, p);
    case Ensure(p, a, n) =>
      if p != "" {
        EnsureMeans(t, p, a, n);
        EnsureReturns(t, p, a);
        assert !Displaced(t, p, a, s);
      }
  }

  /**
    Over any harmless calls: a session asked for is found under that path and
    address, with that name, until a call names the path or the address again.
   */
  lemma {:induction false} FoundUnderLastPath(t: Table, path: string, address: string, name: string, calls: seq<Call>)
    requires Agree(t) && path != "" && !Clash(t, path, address)
    requires Agree(Ensured(t, path, address, name)) && AllHarmless(Ensured(t, path, address, name), calls)
    requires forall i | 0 <= i < |calls| :: Elsewhere(calls[i], path, address)
    ensures var first := Ensured(t, path, address, name);
            FoundUnder(ApplyAll(first, calls), EnsuredHandle(t, path, address), path, address, name)
  {
    EnsureMeans(t, path, address, name);
    StaysFound(Ensured(t, path, address, name), EnsuredHandle(t, path, address), path, address, name, calls);
  }

  lemma {:induction false} StaysFound(t: Table, s: Handle, path: string, address: string, name: string,
                                      calls: seq<Call>)
    requires Agree(t) && AllHarmless(t, calls) && FoundUnder(t, s, path, address, name)
    requires forall i | 0 <= i < |calls| :: Elsewhere(calls[i], path, address)
    ensures FoundUnder(ApplyAll(t, calls), s, path, address, name)
    decreases |calls|
  {
    if calls != [] {
      ElsewhereKeeps(t, calls[0], s, path, address, name);
      StaysFound(Apply(t, calls[0]), s, path, address, name, calls[1..]);
    }
  }

  /** A known address asked for at a new path moves there: the old path finds nothing. */
  lemma MovesToNewPath(t: Table, s: Handle, path: string, address: string, name: string)
    requires Agree(t) && path != "" && address != "" && Knows(t, address, s) && path !in t.byPath
    ensures !Clash(t, path, address) && EnsuredHandle(t, path, address) == s
    ensures var u := Ensured(t, path, address, name);
            FoundUnder(u, s, path, address, name) && t.sessions[s].path !in u.byPath
  {
    EnsureMeans(t, path, address, name);
  }
}

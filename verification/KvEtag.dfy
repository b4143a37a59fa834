/** Conditional writes never suffer from a value that went away and came back: a generation
    names one write for ever, and its ETag names the generation. */
module KvEtag {
  import opened Types
  import opened Kv

  // ----- ETags name generations -----

  lemma {:induction false} DecimalInjective(m: nat, n: nat)
    requires Decimal(m) == Decimal(n)
    ensures m == n
  {
    var s, t := Decimal(m), Decimal(n);
    assert s[|s| - 1] == Digit(m % 10) && t[|t| - 1] == Digit(n % 10);
    if m >= 10 && n >= 10 {
      assert s[..|s| - 1] == Decimal(m / 10) && t[..|t| - 1] == Decimal(n / 10);
      DecimalInjective(m / 10, n / 10);
    } else {
      DecimalLength(m);
      DecimalLength(n);
    }
  }

  lemma DecimalLength(n: nat)
    ensures n < 10 <==> |Decimal(n)| == 1
  {
  }

  lemma EtagInjective(g: Generation, h: Generation)
    requires EtagFor(g) == EtagFor(h)
    ensures g == h
  {
    var s, t := EtagFor(g), EtagFor(h);
    assert s[4..|s| - 1] == Decimal(g) && t[4..|t| - 1] == Decimal(h);
    DecimalInjective(g, h);
  }

  /** The number that digits stand for. */
  function Parsed(digits: Bytes): nat
    requires forall k :: 0 <= k < |digits| ==> 48 <= digits[k] < 58
  {
    if digits == [] then 0 else 10 * Parsed(digits[..|digits| - 1]) + (digits[|digits| - 1] - 48)
  }

  lemma {:induction false} DecimalParsed(n: nat)
    ensures forall k :: 0 <= k < |Decimal(n)| ==> 48 <= Decimal(n)[k] < 58
    ensures Parsed(Decimal(n)) == n && (n > 0 ==> Decimal(n)[0] != 48)
  {
    if n >= 10 {
      DecimalParsed(n / 10);
      assert Decimal(n)[..|Decimal(n)| - 1] == Decimal(n / 10);
    } else {
      assert Decimal(n)[..0] == [];
    }
  }

  /** An ETag is `c9-` and the generation in decimal, in quotes. */
  lemma EtagReads(g: Generation)
    ensures var e := EtagFor(g);
            && |e| > 5 && e[..4] == [34, 99, 57, 45] && e[|e| - 1] == 34
            && (forall k :: 4 <= k < |e| - 1 ==> 48 <= e[k] < 58)
            && Parsed(e[4..|e| - 1]) == g
  {
    DecimalParsed(g);
    assert EtagFor(g)[4..|EtagFor(g)| - 1] == Decimal(g);
  }

  /** Every ETag the machine issues may be sent back in a condition. */
  lemma EtagUsable(g: Generation)
    requires g <= U64_MAX
    ensures EtagFor(g) != [] && |EtagFor(g)| <= MAX_ETAG_BYTES
  {
    assert Pow10(4) == 10_000 && Pow10(8) == 100_000_000 by { Pow10Adds(2, 2); Pow10Adds(4, 4); }
    assert Pow10(20) == 100_000_000_000_000_000_000 by { Pow10Adds(8, 8); Pow10Adds(16, 4); }
    DecimalShort(g, 20);
  }

  lemma {:induction false} Pow10Adds(a: nat, b: nat)
    ensures Pow10(a + b) == Pow10(a) * Pow10(b)
  {
    if b > 0 {
      Pow10Adds(a, b - 1);
      assert a + b - 1 == a + (b - 1);
    }
  }

  function Pow10(d: nat): nat {
    if d == 0 then 1 else 10 * Pow10(d - 1)
  }

  lemma {:induction false} DecimalShort(n: nat, d: nat)
    requires d >= 1 && n < Pow10(d)
    ensures |Decimal(n)| <= d
  {
    if n >= 10 {
      assert d > 1;
      DecimalShort(n / 10, d - 1);
    }
  }

  // ----- A generation is one write -----

  /** Whatever carries generation `g` is `record` under `name`; and `g` has been issued. */
  ghost predicate OnlyAs(state: KvState, g: Generation, name: KvName, record: KvRecord) {
    && g < state.nextGeneration
    && forall m :: m in state.entries && state.entries[m].generation == g ==> m == name && state.entries[m] == record
  }

  ghost predicate Gone(state: KvState, g: Generation) {
    g < state.nextGeneration && forall m :: m in state.entries ==> state.entries[m].generation != g
  }

  lemma OnlyAsKept(state: KvState, c: Command, g: Generation, name: KvName, record: KvRecord)
    requires Valid(state) && OnlyAs(state, g, name, record)
    ensures OnlyAs(Apply(state, c).0, g, name, record)
    ensures Gone(state, g) ==> Gone(Apply(state, c).0, g)
  {
    hide EtagFor, Valid;
  }

  lemma {:induction false} OnlyAsAll(state: KvState, cs: seq<Command>, g: Generation, name: KvName, record: KvRecord)
    requires Valid(state) && OnlyAs(state, g, name, record)
    ensures Valid(ApplyAll(state, cs)) && OnlyAs(ApplyAll(state, cs), g, name, record)
    ensures Gone(state, g) ==> Gone(ApplyAll(state, cs), g)
  {
    hide Apply, Valid, OnlyAs, Gone;
    if cs != [] {
      var init := cs[..|cs| - 1];
      OnlyAsAll(state, init, g, name, record);
      ApplyValid(ApplyAll(state, init), cs[|cs| - 1]);
      OnlyAsKept(ApplyAll(state, init), cs[|cs| - 1], g, name, record);
    }
  }

  lemma {:induction false} ApplyAllSplit(state: KvState, a: seq<Command>, b: seq<Command>)
    ensures ApplyAll(state, a + b) == ApplyAll(ApplyAll(state, a), b)
  {
    if b == [] {
      assert a + b == a;
    } else {
      var init := b[..|b| - 1];
      assert (a + b)[..|a + b| - 1] == a + init;
      ApplyAllSplit(state, a, init);
    }
  }

  /** The put goes through now, under a fresh generation. */
  predicate Writes(state: KvState, c: Command) {
    c.Put? && Apply(state, c).0 != state && Apply(state, c).1.Ok?
  }

  /** The command is carried out now, on condition that the key's ETag is `etag`. */
  predicate ConditionMet(state: KvState, c: Command, etag: Bytes) {
    (c.Put? || c.Delete?) && etag != [] && c.ifMatch == etag && Apply(state, c).0 != state && Apply(state, c).1.Ok?
  }

  lemma WriteIsFresh(state: KvState, c: Command)
    requires Valid(state) && Writes(state, c)
    ensures var (state', r) := Apply(state, c);
            var name, g := KvName(c.space, c.key), state.nextGeneration;
            && r == Ok(PutDone(PutResponse(name, EtagFor(g), g, |c.body|)))
            && name in state'.entries && state'.entries[name] == KvRecord(c.body, EtagFor(g), g)
            && state'.nextGeneration == g + 1
            && OnlyAs(state', g, name, state'.entries[name])
  {
    hide EtagFor;
    if c.clientId in state.sessions {
      assert SessionOk(state.sessions[c.clientId]);
    }
  }

  /** No two writes of a history share a generation or an ETag. */
  lemma GenerationsUnique(state: KvState, c: Command, between: seq<Command>, d: Command)
    requires Valid(state) && Writes(state, c)
    requires Writes(ApplyAll(Apply(state, c).0, between), d)
    ensures var later := ApplyAll(Apply(state, c).0, between);
            var first, second := Apply(state, c).1.value.put, Apply(later, d).1.value.put;
            first.generation < second.generation && first.etag != second.etag
  {
    hide Apply, Valid, OnlyAs, EtagFor;
    var state' := Apply(state, c).0;
    var later := ApplyAll(state', between);
    ApplyValid(state, c);
    WriteIsFresh(state, c);
    var name, g := KvName(c.space, c.key), state.nextGeneration;
    OnlyAsAll(state', between, g, name, state'.entries[name]);
    WriteIsFresh(later, d);
    IssuedBelow(later, g, name, state'.entries[name]);
    if EtagFor(g) == EtagFor(later.nextGeneration) {
      EtagInjective(g, later.nextGeneration);
    }
  }

  lemma IssuedBelow(state: KvState, g: Generation, name: KvName, record: KvRecord)
    requires OnlyAs(state, g, name, record)
    ensures g < state.nextGeneration
  {
  }

  lemma MetMeansCurrent(state: KvState, d: Command, g: Generation, name: KvName, record: KvRecord)
    requires Valid(state) && OnlyAs(state, g, name, record) && ConditionMet(state, d, EtagFor(g))
    ensures KvName(d.space, d.key) == name && name in state.entries && state.entries[name] == record
    ensures !Gone(state, g)
  {
    hide EtagFor;
    if d.clientId in state.sessions {
      assert SessionOk(state.sessions[d.clientId]);
    }
    var m := KvName(d.space, d.key);
    assert m in state.entries && state.entries[m].etag == EtagFor(g);
    EtagInjective(state.entries[m].generation, g);
  }

  /** No ABA: a conditional command that is carried out on the ETag of an earlier write acts
      on that very write, which has been current at every moment in between. */
  lemma NoAba(state: KvState, c: Command, between: seq<Command>, d: Command, k: nat)
    requires Valid(state) && Writes(state, c) && k <= |between|
    requires ConditionMet(ApplyAll(Apply(state, c).0, between), d, EtagFor(state.nextGeneration))
    ensures var name := KvName(c.space, c.key);
            var mid := ApplyAll(Apply(state, c).0, between[..k]);
            && KvName(d.space, d.key) == name
            && name in mid.entries
            && mid.entries[name] == KvRecord(c.body, EtagFor(state.nextGeneration), state.nextGeneration)
  {
    hide Apply, Valid, EtagFor, ConditionMet, OnlyAs, Gone;
    var name, g := KvName(c.space, c.key), state.nextGeneration;
    var record := KvRecord(c.body, EtagFor(g), g);
    var state' := Apply(state, c).0;
    ApplyValid(state, c);
    WriteIsFresh(state, c);
    assert between == between[..k] + between[k..];
    var mid := ApplyAll(state', between[..k]);
    ApplyAllSplit(state', between[..k], between[k..]);
    OnlyAsAll(state', between[..k], g, name, record);
    OnlyAsAll(mid, between[k..], g, name, record);
    MetMeansCurrent(ApplyAll(state', between), d, g, name, record);
    NotGone(mid, g, name, record);
  }

  lemma NotGone(state: KvState, g: Generation, name: KvName, record: KvRecord)
    requires OnlyAs(state, g, name, record)
    ensures !Gone(state, g) ==> name in state.entries && state.entries[name] == record
  {
  }

  /** Once the write has been overwritten or deleted, its ETag never opens a door again. */
  lemma NeverAgain(state: KvState, g: Generation, cs: seq<Command>, d: Command, name: KvName, record: KvRecord)
    requires Valid(state) && OnlyAs(state, g, name, record) && Gone(state, g)
    ensures !ConditionMet(ApplyAll(state, cs), d, EtagFor(g))
  {
    hide Apply, Valid, EtagFor, ConditionMet, OnlyAs, Gone;
    OnlyAsAll(state, cs, g, name, record);
    if ConditionMet(ApplyAll(state, cs), d, EtagFor(g)) {
      MetMeansCurrent(ApplyAll(state, cs), d, g, name, record);
    }
  }
}

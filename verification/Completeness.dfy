/** Completeness: a parser without conflicts parses every sentence, by exactly the reductions of
    its parse tree. */
module Completeness {
  import opened Grammars
  import opened Derivations
  import opened FirstSets
  import opened FirstMeaning
  import opened Automata
  import opened FollowSets
  import opened Actions
  import opened Compression
  import opened ParserTables
  import opened Emit
  import opened Lookups
  import opened Driver
  import opened Machines
  import opened StackInvariants
  import opened Steps
  import opened Soundness
  import opened Walks

  // ----- The decisions of a conflict-free parser -----

  /** Every action of the automaton is the decision of the parser. */
  ghost predicate Faithful(m: Machine, f: Follow) {
    forall i: nat, act | i < |m.aps| && IsRaw(m.g, m.a, f, i, act) :: Decided(m.g, m.aps[i], act)
  }

  ghost predicate Decided(g: Grammar, ap: seq<Action>, act: Action) {
    if act.sp < g.nterminal then
      forall n: nat | ChainEnds(g.fallback, act.sp, n) :: Decide(g, ap, act.sp, n) == EffectOf(act)
    else DecideGoto(g, ap, act.sp) == EffectOf(act)
  }

  lemma PresentIsDecided(g: Grammar, ap: seq<Action>, act: Action)
    requires UniqueLive(ap) && act in ap && Live(act)
    ensures Decided(g, ap, act)
  {
    LiveOnUnique(ap, act);
  }

  lemma MovedIsDecided(g: Grammar, ap0: seq<Action>, ap: seq<Action>, r: nat, act: Action)
    requires g.wildcard.None? && NoSubstitutes(g) && g.nterminal <= g.nsymbol
    requires UniqueLive(ap0) && CompressedBy(g, ap0, ap, r) && act in ap0 && Live(act) && IsReduceBy(act, r)
    requires act.sp < g.nterminal
    ensures Decided(g, ap, act)
  {
    hide MostFrequent, UsesWildcard, CompressedBy;
    LiveOnUnique(ap0, act);
    forall n: nat | ChainEnds(g.fallback, act.sp, n) ensures Decide(g, ap, act.sp, n) == EffectOf(act) {
      MovedPreservedIff(g, ap0, ap, r, act.sp, n);
    }
  }

  lemma KeptIsDecided(g: Grammar, ap0: seq<Action>, ap: seq<Action>, r: nat, act: Action)
    requires CompressedBy(g, ap0, ap, r) && act in ap0 && Live(act) && !IsReduceBy(act, r)
    ensures Decided(g, ap, act)
  {
    hide MostFrequent, UsesWildcard;
    PresentIsDecided(g, ap, act);
  }

  /** Without conflicts and substitutes no action is lost, by compression neither. */
  lemma ConflictFreeIsFaithful(m: Machine, lam: set<nat>, first: First, f: Follow, aps0: seq<seq<Action>>)
    requires WfGrammar(m.g) && NoSubstitutes(m.g) && Collection(m.g, lam, first, m.a)
    requires ActionTable(m.g, m.a, f, aps0) && ConflictFree(m.g, m.a, f)
    requires |m.aps| == |aps0|
    requires forall i | 0 <= i < |aps0| :: m.aps[i] == aps0[i] || Compressed(m.g, aps0[i], m.aps[i])
    ensures Faithful(m, f)
  {
    hide Collection, Partial, IsRaw, ConflictFree, CompressedBy, UsesWildcard, Decided;
    CollectionIsPartial(m.g, lam, first, m.a);
    forall i: nat, act | i < |m.aps| && IsRaw(m.g, m.a, f, i, act) ensures Decided(m.g, m.aps[i], act) {
      ConflictFreeKeepsAll(m.g, m.a, f, i, aps0[i]);
      if m.aps[i] == aps0[i] {
        PresentIsDecided(m.g, m.aps[i], act);
      } else {
        var r: nat :| CompressedBy(m.g, aps0[i], m.aps[i], r);
        if IsReduceBy(act, r) {
          RawReduceOnTerminal(m.g, m.a, f, lam, first, i, act);
          MovedIsDecided(m.g, aps0[i], m.aps[i], r, act);
        } else {
          KeptIsDecided(m.g, aps0[i], m.aps[i], r, act);
        }
      }
    }
  }

  lemma RawReduceOnTerminal(g: Grammar, a: Automaton, f: Follow, lam: set<nat>, first: First, i: nat, act: Action)
    requires WfGrammar(g) && Partial(g, lam, first, a) && IsRaw(g, a, f, i, act) && act.kind == Reduce
    ensures act.sp < g.nterminal
  {
    hide Partial;
    if act in a.states[i].ap {
      ShiftIsSane(g, lam, first, a, i, act);
    }
  }

  // ----- Follow sets that flow -----

  ghost predicate Flows(g: Grammar, lam: set<nat>, first: First, a: Automaton, f: Follow) {
    && AllCfgs(a, f)
    && (forall c, t | IsCfg(a, c) && Seeded(g, lam, first, a, c, t) :: t in f[c])
    && (forall c, d | c in f && d in f && (ClosureLink(g, lam, c, d) || ShiftLink(g, a, c, d)) :: f[c] <= f[d])
  }

  lemma LeastFollowFlows(g: Grammar, lam: set<nat>, first: First, a: Automaton, fplp: Links, f: Follow)
    requires Collection(g, lam, first, a) && ExactLinks(g, lam, a, fplp) && LeastFollow(a, fplp, f)
    ensures Flows(g, lam, first, a, f)
  {
    hide StateOk, Automata.Placed, ShiftOk, Seeded, ClosureLink, ShiftLink, BelowFollowSolutions, Done;
    forall c, t | IsCfg(a, c) && Seeded(g, lam, first, a, c, t) ensures t in f[c] {
      assert ConfigOk(g, lam, first, a, c);
    }
    forall c, d | c in f && d in f && (ClosureLink(g, lam, c, d) || ShiftLink(g, a, c, d)) ensures f[c] <= f[d] {
      assert Propagated(f, fplp, c);
    }
  }

  // ----- The setting -----

  datatype Sets = Sets(lam: set<nat>, first: First, f: Follow)

  ghost predicate Setting(m: Machine, q: Sets) {
    && Usable(m) && EmptyRuleClosed(m.g)
    && FirstSetsOf(m.g, q.lam, q.first) && Collection(m.g, q.lam, q.first, m.a)
    && Flows(m.g, q.lam, q.first, m.a, q.f) && Faithful(m, q.f)
  }

  /** Configuration `c` waits inside a call for its token `t` to be used. */
  ghost predicate Pending(m: Machine, c: Config, t: nat) {
    && c.major == t < m.g.nterminal && c.endofinput == (t == 0) && Clean(c.log) && Accepted !in c.log
  }

  ghost function TopId(m: Machine, st: seq<Entry>): nat
    requires st != []
  {
    StateId(m, Top(st).stateno)
  }

  /** The state on top holds item `it` with `z` in its follow set. */
  ghost predicate At(m: Machine, q: Sets, st: seq<Entry>, form: seq<nat>, it: Item, z: nat) {
    && StackOf(m, st, form) && z < m.g.nterminal
    && ItemAt(m, st, |st| - 1, it)
    && var c := Cfg(TopId(m, st), it); c in q.f && z in q.f[c]
  }

  /** A run from `c` to `d` that read `w` and reduced by `rs`. */
  ghost predicate Did(c: Config, d: Config, w: seq<nat>, rs: seq<nat>) {
    && Toks(d.log) == Toks(c.log) + w && Reds(d.log) == rs + Reds(c.log)
  }

  function Ahead(w: seq<nat>, z: nat): nat {
    (w + [z])[0]
  }

  function Later(w: seq<nat>, z: nat): seq<nat> {
    (w + [z])[1..]
  }

  lemma LaterConcat(u: seq<nat>, v: seq<nat>, z: nat)
    ensures Later(u, Ahead(v, z)) + Later(v, z) == Later(u + v, z)
    ensures Ahead(u, Ahead(v, z)) == Ahead(u + v, z)
  {
    assert [Ahead(v, z)] + Later(v, z) == v + [z];
    assert u + ([Ahead(v, z)] + Later(v, z)) == u + v + [z];
    assert u + [Ahead(v, z)] + Later(v, z) == u + v + [z];
  }

  // ----- One leaf -----

  lemma SettingParts(m: Machine, q: Sets)
    requires Setting(m, q)
    ensures Usable(m) && WfGrammar(m.g) && TablesUsable(m.tb) && Partial(m.g, q.lam, q.first, m.a)
    ensures m.tb.NoCode() > m.g.nterminal && |m.aps| == |m.a.states| == m.tb.nstate == |m.num|
  {
    hide Partial, Collection, Flows, Faithful;
    MachineUsable(m);
    MachineIsWf(m);
    SizesAgree(m);
    CollectionIsPartial(m.g, q.lam, q.first, m.a);
  }

  lemma RawDecided(m: Machine, q: Sets, s: nat, act: Action)
    requires Setting(m, q) && s < m.tb.nstate && IsRaw(m.g, m.a, q.f, StateId(m, s), act)
    ensures act.sp < m.g.nterminal ==> ShiftDecision(m, s, act.sp) == EffectOf(act)
    ensures act.sp >= m.g.nterminal ==> GotoDecision(m, s, act.sp) == EffectOf(act)
  {
    hide Usable, Collection, Flows, IsRaw;
    SettingParts(m, q);
    MachineTables(m);
    StateNumber(m, s);
    assert Decided(m.g, m.aps[StateId(m, s)], act);
  }

  /** The move over a symbol that an item expects: where it goes, and that the follow set of the
      item flows along. */
  lemma Advanced(m: Machine, q: Sets, st: seq<Entry>, form: seq<nat>, it: Item, z: nat, x: Symbol, s: nat)
    returns (j: nat)
    requires Setting(m, q) && At(m, q, st, form, it, z) && Next(m.g, it) == Some(x) && Spells(x, s)
    ensures j < |m.num| && m.num[j] < m.tb.nstate && StateId(m, m.num[j]) == j
    ensures IsRaw(m.g, m.a, q.f, TopId(m, st), Action(s, Shift, j))
    ensures Advance(it) in m.a.states[j].items && Cfg(j, Advance(it)) in q.f && z in q.f[Cfg(j, Advance(it))]
    ensures 0 < s < m.g.nsymbol
  {
    hide Usable, StackOf, Partial, Seeded, ClosureLink, Leads, IsRaw;
    SettingParts(m, q);
    TopInRange(m, st, form);
    var i := TopId(m, st);
    j := GotoIsRaw(m.g, q.lam, q.first, m.a, q.f, i, it, x, s);
    assert Goes(m.g, m.a, i, s, j);
    GoesPositive(m.g, m.a, i, s, j);
    NumberOfState(m, j);
    var c, d := Cfg(i, it), Cfg(j, Advance(it));
    assert ShiftLink(m.g, m.a, c, d);
    AdvanceStays(m.g, q.lam, q.first, m.a, c, d);
  }

  lemma ShiftDid(c: Config, d: Config, t: nat)
    requires d.log == c.log + [Shifted(t)] && Clean(c.log) && Accepted !in c.log
    ensures Did(c, d, [t], []) && Clean(d.log) && Accepted !in d.log
  {
    LogAppend(c.log, Shifted(t));
    assert Reds(d.log) == [] + Reds(c.log);
  }

  lemma ReduceDid(c: Config, d: Config, r: nat)
    requires d.log == c.log + [Reduced(r)] && Clean(c.log) && Accepted !in c.log
    ensures Did(c, d, [], [r]) && Clean(d.log) && Accepted !in d.log
  {
    LogAppend(c.log, Reduced(r));
    assert Toks(d.log) == Toks(c.log) + [];
  }

  lemma ShiftTurn(m: Machine, c: Config, form: seq<nat>, j: nat) returns (form': seq<nat>)
    requires Usable(m) && StackOf(m, c.stack, form) && c.major < m.g.nterminal && |c.stack| < m.tb.depth
    requires c.endofinput == (c.major == 0)
    requires ShiftDecision(m, Top(c.stack).stateno, c.major) == Effect(Shift, j)
    ensures TablesUsable(m.tb) && j < |m.num| && c.major > 0
    ensures Step(m.tb, c).stack == c.stack + [Entry(m.num[j], c.major)] && Step(m.tb, c).major == m.tb.NoCode()
    ensures Step(m.tb, c).log == c.log + [Shifted(c.major)]
    ensures StackOf(m, c.stack + [Entry(m.num[j], c.major)], form')
  {
    hide Usable, StackOf, Moves, Step, ErrorStep, ReduceStep, ReadAs;
    FormLength(m, c.stack, form);
    MachineUsable(m);
    StepShape(m, c, form);
    var y: nat :| ReadAs(m.g, c.major, y) && 0 < y < m.g.nterminal && Moves(m, Top(c.stack).stateno, y, m.num[j]);
    StackPush(m, c.stack, form, Entry(m.num[j], c.major), y);
    form' := form + [y];
  }

  lemma PushAt(m: Machine, q: Sets, st: seq<Entry>, e: Entry, form: seq<nat>, j: nat, it: Item, z: nat)
    requires StackOf(m, st + [e], form) && StateId(m, e.stateno) == j < |m.a.states| && z < m.g.nterminal
    requires it in m.a.states[j].items && Cfg(j, it) in q.f && z in q.f[Cfg(j, it)]
    ensures At(m, q, st + [e], form, it, z)
  {
    hide StackOf;
    assert Top(st + [e]) == e;
  }

  /** A pending terminal that the item on top expects is shifted, and the next call begins. */
  lemma ShiftLeaf(m: Machine, q: Sets, c: Config, form: seq<nat>, it: Item, z: nat, x: Symbol, s: nat,
        next: nat) returns (d: Config, form': seq<nat>)
    requires Setting(m, q) && At(m, q, c.stack, form, it, z) && Next(m.g, it) == Some(x) && Spells(x, s)
    requires Pending(m, c, s) && next < m.g.nterminal && |c.stack| < m.tb.depth
    ensures TablesUsable(m.tb) && Walk(m.tb, c, [next], d)
    ensures Pending(m, d, next) && Did(c, d, [s], [])
    ensures |d.stack| == |c.stack| + 1 && d.stack[..|c.stack|] == c.stack
    ensures At(m, q, d.stack, form', Advance(it), z)
  {
    hide Setting, Usable, Partial, WfGrammar, WfTables, StackOf, Step, Clean, IsRaw, Walk, Did, ShiftDecision,
         GotoDecision;
    SettingParts(m, q);
    var j := Advanced(m, q, c.stack, form, it, z, x, s);
    TopInRange(m, c.stack, form);
    RawDecided(m, q, Top(c.stack).stateno, Action(s, Shift, j));
    form' := ShiftTurn(m, c, form, j);
    PushAt(m, q, c.stack, Entry(m.num[j], s), form', j, Advance(it), z);
    WalkNextCall(m.tb, c, next);
    d := Begin(Step(m.tb, c), next);
    ShiftDid(c, d, s);
  }

  // ----- One reduce -----

  /** A complete item with the pending token in its follow set is reduced by, and the left-hand
      side is shifted on the state below. */
  lemma ReduceNode(m: Machine, q: Sets, c: Config, form: seq<nat>, r: nat, z: nat)
    requires Setting(m, q) && r < |m.g.rules| && At(m, q, c.stack, form, Item(r, |m.g.rules[r].rhs|), z)
    requires Pending(m, c, z)
    ensures TablesUsable(m.tb) && r < m.tb.nrule && Step(m.tb, c) == ReduceStep(m.tb, c, r)
  {
    hide Setting, StackOf, Moves, Step, ErrorStep, ReduceStep, ReadAs, Clean;
    SettingParts(m, q);
    TopInRange(m, c.stack, form);
    var act := Action(z, Reduce, r);
    assert IsReduce(m.g, m.a, q.f, TopId(m, c.stack), act);
    RawDecided(m, q, Top(c.stack).stateno, act);
    StepShape(m, c, form);
  }

  lemma ReduceTurn(m: Machine, c: Config, below: seq<Entry>, form: seq<nat>, form0: seq<nat>, r: nat, j: nat)
    requires Usable(m) && StackOf(m, c.stack, form) && r < |m.g.rules|
    requires ItemAt(m, c.stack, |c.stack| - 1, Item(r, |m.g.rules[r].rhs|))
    requires |c.stack| == |below| + |m.g.rules[r].rhs| && c.stack[..|below|] == below && |below| < m.tb.depth
    requires StackOf(m, below, form0) && m.g.rules[r].lhs != m.g.start
    requires GotoDecision(m, Top(below).stateno, m.g.rules[r].lhs) == Effect(Shift, j)
    ensures WfTables(m.tb) && r < m.tb.nrule && j < |m.num|
    ensures ReduceStep(m.tb, c, r).stack == below + [Entry(m.num[j], m.g.rules[r].lhs)]
    ensures ReduceStep(m.tb, c, r).log == c.log + [Reduced(r)]
    ensures StackOf(m, below + [Entry(m.num[j], m.g.rules[r].lhs)], form0 + [m.g.rules[r].lhs])
  {
    hide Usable, StackOf, Moves, ReduceStep, ReadAs, SpellsAll, GotoDecision;
    ReduceShape(m, c, form, r);
    var lhs := m.g.rules[r].lhs;
    FormLength(m, below, form0);
    ReadDirectly(m.g, lhs, lhs);
    StackPush(m, below, form0, Entry(m.num[j], lhs), lhs);
  }

  /** The reduce and the push of the left-hand side, on which item `it` of the state below waits. */
  lemma ReducePush(m: Machine, q: Sets, c: Config, below: seq<Entry>, form: seq<nat>, form0: seq<nat>, r: nat, z: nat,
        it: Item, z0: nat)
    returns (d: Config, form': seq<nat>)
    requires Setting(m, q) && r < |m.g.rules| && At(m, q, c.stack, form, Item(r, |m.g.rules[r].rhs|), z)
    requires Pending(m, c, z)
    requires |c.stack| == |below| + |m.g.rules[r].rhs| && c.stack[..|below|] == below && |below| < m.tb.depth
    requires At(m, q, below, form0, it, z0) && Next(m.g, it) == Some(Nonterminal(m.g.rules[r].lhs))
    ensures TablesUsable(m.tb) && Walk(m.tb, c, [], d)
    ensures Pending(m, d, z) && Did(c, d, [], [r])
    ensures |d.stack| == |below| + 1 && d.stack[..|below|] == below
    ensures At(m, q, d.stack, form', Advance(it), z0)
  {
    hide Setting, Usable, Partial, WfGrammar, WfTables, StackOf, Step, ReduceStep, Clean, IsRaw, Walk, Did,
         ShiftDecision, GotoDecision;
    SettingParts(m, q);
    var lhs := m.g.rules[r].lhs;
    ReduceNode(m, q, c, form, r, z);
    NextIsNotStart(m.g, it);
    var j := Advanced(m, q, below, form0, it, z0, Nonterminal(lhs), lhs);
    TopInRange(m, below, form0);
    TopInRange(m, c.stack, form);
    RawDecided(m, q, Top(below).stateno, Action(lhs, Shift, j));
    ReduceTurn(m, c, below, form, form0, r, j);
    ReduceKeeps(m.tb, c, r);
    PushAt(m, q, below, Entry(m.num[j], lhs), form0 + [lhs], j, Advance(it), z0);
    d, form' := Step(m.tb, c), form0 + [lhs];
    ReduceDid(c, d, r);
    WalkStep(m.tb, c);
  }

  // ----- Whole trees -----

  /** An item of the closure waits for the token that comes after what it is to derive. */
  lemma Expected(m: Machine, q: Sets, st: seq<Entry>, form: seq<nat>, it: Item, z: nat, r: nat, rest: seq<Tree>)
    requires Setting(m, q) && At(m, q, st, form, it, z)
    requires r < |m.g.rules| && Next(m.g, it) == Some(Nonterminal(m.g.rules[r].lhs))
    requires WfForest(m.g, rest) && SpellsAll(Rest(m.g, it), Roots(m.g, rest)) && Terminals(m.g, YieldAll(rest))
    ensures At(m, q, st, form, Item(r, 0), Ahead(YieldAll(rest), z))
  {
    hide Usable, Collection, Partial, Faithful, StackOf, FirstOf, ShiftLink, WfTree, Spells;
    SettingParts(m, q);
    TopInRange(m, st, form);
    var i, d := TopId(m, st), Item(r, 0);
    ClosureStays(m.g, m.a, i, it, d, q.lam, q.first);
    assert IsCfg(m.a, Cfg(i, d));
    forall k | 0 <= k < |Rest(m.g, it)| ensures WfSymbol(m.g, Rest(m.g, it)[k]) {
      assert WfRule(m.g, m.g.rules[it.rule]);
    }
    ForestBegins(m.g, q.lam, q.first, Rest(m.g, it), rest);
    if YieldAll(rest) == [] {
      assert ClosureLink(m.g, q.lam, Cfg(i, it), Cfg(i, d));
    } else {
      assert SeededBy(m.g, q.lam, q.first, m.a.states[i].items, d, YieldAll(rest)[0]);
      assert Seeded(m.g, q.lam, q.first, m.a, Cfg(i, d), YieldAll(rest)[0]);
    }
  }

  lemma DidTrans(c: Config, d: Config, e: Config, w1: seq<nat>, r1: seq<nat>, w2: seq<nat>, r2: seq<nat>)
    requires Did(c, d, w1, r1) && Did(d, e, w2, r2)
    ensures Did(c, e, w1 + w2, r2 + r1)
  {
    hide Toks, Reds;
  }

  lemma PrefixTrans(a: seq<Entry>, b: seq<Entry>, c: seq<Entry>)
    requires |a| <= |b| <= |c| && b[..|a|] == a && c[..|b|] == b
    ensures c[..|a|] == a
  {
    assert c[..|b|][..|a|] == c[..|a|];
  }

  lemma AheadIsTerminal(m: Machine, w: seq<nat>, z: nat)
    requires Terminals(m.g, w) && z < m.g.nterminal
    ensures Ahead(w, z) < m.g.nterminal
  {
  }

  /** Parsing what symbol `x` of an item derives pushes one level, reads the yield of the tree and
      reduces by the rules of the tree. */
  lemma {:induction false} ParseTree(m: Machine, q: Sets, c: Config, form: seq<nat>, it: Item, z: nat, x: Symbol,
        t: Tree, z1: nat)
    returns (d: Config, form': seq<nat>)
    requires Setting(m, q) && At(m, q, c.stack, form, it, z) && Next(m.g, it) == Some(x)
    requires WfTree(m.g, t) && Spells(x, Root(m.g, t)) && Terminals(m.g, Yield(t)) && z1 < m.g.nterminal
    requires t.Node? ==> At(m, q, c.stack, form, Item(t.rule, 0), z1)
    requires Pending(m, c, Ahead(Yield(t), z1)) && |c.stack| + Need(t) <= m.tb.depth
    ensures TablesUsable(m.tb) && Walk(m.tb, c, Later(Yield(t), z1), d)
    ensures Pending(m, d, z1) && Did(c, d, Yield(t), Rules(t))
    ensures |d.stack| == |c.stack| + 1 && d.stack[..|c.stack|] == c.stack
    ensures At(m, q, d.stack, form', Advance(it), z)
    decreases t, 0
  {
    hide Setting, Walk, Did, Clean, At, Terminals;
    SettingParts(m, q);
    NextIsNotStart(m.g, it);
    match t
    case Leaf(s) =>
      d, form' := ShiftLeaf(m, q, c, form, it, z, x, s, z1);
      assert Later([s], z1) == [z1];
    case Node(r, kids) =>
      NodeSpellsNonterminal(m.g, x, t);
      assert m.g.rules[r].rhs[0..] == m.g.rules[r].rhs;
      var d1, form1 := ParseForest(m, q, c, form, Item(r, 0), z1, kids);
      d, form' := ReducePush(m, q, d1, c.stack, form1, form, r, z1, it, z);
      WalkTrans(m.tb, c, Later(YieldAll(kids), z1), d1, [], d);
      assert Later(YieldAll(kids), z1) + [] == Later(Yield(t), z1);
      DidTrans(c, d1, d, YieldAll(kids), RulesAll(kids), [], [r]);
      assert YieldAll(kids) + [] == Yield(t);
  }

  lemma {:induction false} ParseForest(m: Machine, q: Sets, c: Config, form: seq<nat>, it: Item, z: nat, f: seq<Tree>)
    returns (d: Config, form': seq<nat>)
    requires Setting(m, q) && At(m, q, c.stack, form, it, z)
    requires it.rule < |m.g.rules| && it.dot + |f| == |m.g.rules[it.rule].rhs|
    requires WfForest(m.g, f) && SpellsAll(m.g.rules[it.rule].rhs[it.dot..], Roots(m.g, f))
    requires Terminals(m.g, YieldAll(f))
    requires Pending(m, c, Ahead(YieldAll(f), z)) && |c.stack| + NeedAll(f) <= m.tb.depth
    ensures TablesUsable(m.tb) && Walk(m.tb, c, Later(YieldAll(f), z), d)
    ensures Pending(m, d, z) && Did(c, d, YieldAll(f), RulesAll(f))
    ensures |d.stack| == |c.stack| + |f| && d.stack[..|c.stack|] == c.stack
    ensures At(m, q, d.stack, form', Item(it.rule, |m.g.rules[it.rule].rhs|), z)
    decreases f, 1
  {
    hide Setting, Usable, Partial, WfGrammar, WfTables, Walk, Did, Clean, At, Pending, Terminals, WfTree, WfForest,
         SpellsAll, Yield, YieldAll, Need, NeedAll, Rules, RulesAll;
    SettingParts(m, q);
    if f == [] {
      d, form' := c, form;
      WalkNothing(m.tb, c);
      NothingToParse(m, c, z);
    } else {
      var x, z1 := m.g.rules[it.rule].rhs[it.dot], Ahead(YieldAll(f[1..]), z);
      FirstTree(m, q, c, form, it, z, f);
      var d1, form1 := ParseTree(m, q, c, form, it, z, x, f[0], z1);
      d, form' := ParseForest(m, q, d1, form1, Advance(it), z, f[1..]);
      WalkTrans(m.tb, c, Later(Yield(f[0]), z1), d1, Later(YieldAll(f[1..]), z), d);
      DidTrans(c, d1, d, Yield(f[0]), Rules(f[0]), YieldAll(f[1..]), RulesAll(f[1..]));
      PrefixTrans(c.stack, d1.stack, d.stack);
    }
  }

  lemma NothingToParse(m: Machine, c: Config, z: nat)
    ensures Did(c, c, YieldAll([]), RulesAll([])) && Later(YieldAll([]), z) == []
    ensures Pending(m, c, Ahead(YieldAll([]), z)) ==> Pending(m, c, z)
  {
    assert Ahead([], z) == z;
    assert Toks(c.log) + [] == Toks(c.log) && [] + Reds(c.log) == Reds(c.log);
  }

  /** How the parse of a forest divides into its first tree and the rest. */
  lemma FirstTree(m: Machine, q: Sets, c: Config, form: seq<nat>, it: Item, z: nat, f: seq<Tree>)
    requires Setting(m, q) && At(m, q, c.stack, form, it, z) && f != []
    requires it.rule < |m.g.rules| && it.dot + |f| == |m.g.rules[it.rule].rhs|
    requires WfForest(m.g, f) && SpellsAll(m.g.rules[it.rule].rhs[it.dot..], Roots(m.g, f))
    requires Terminals(m.g, YieldAll(f))
    requires Pending(m, c, Ahead(YieldAll(f), z))
    ensures var t, rest, x, z1 := f[0], f[1..], m.g.rules[it.rule].rhs[it.dot], Ahead(YieldAll(f[1..]), z);
      && Next(m.g, it) == Some(x) && z1 < m.g.nterminal
      && WfTree(m.g, t) && Spells(x, Root(m.g, t)) && Terminals(m.g, Yield(t))
      && (t.Node? ==> At(m, q, c.stack, form, Item(t.rule, 0), z1))
      && Pending(m, c, Ahead(Yield(t), z1))
      && WfForest(m.g, rest) && SpellsAll(m.g.rules[it.rule].rhs[it.dot + 1..], Roots(m.g, rest))
         && Terminals(m.g, YieldAll(rest))
      && NeedAll(f) == (if Need(t) > 1 + NeedAll(rest) then Need(t) else 1 + NeedAll(rest))
      && YieldAll(f) == Yield(t) + YieldAll(rest) && RulesAll(f) == RulesAll(rest) + Rules(t)
      && Later(Yield(t), z1) + Later(YieldAll(rest), z) == Later(YieldAll(f), z)
  {
    hide Setting, Usable, Partial, Clean, At, Terminals, WfTree;
    SettingParts(m, q);
    AtTerminal(m, q, c.stack, form, it, z);
    var rhs := m.g.rules[it.rule].rhs;
    assert rhs[it.dot..][1..] == rhs[it.dot + 1..];
    ForestSplit(m.g, rhs[it.dot..], f);
    TerminalsSplit(m.g, Yield(f[0]), YieldAll(f[1..]));
    LaterConcat(Yield(f[0]), YieldAll(f[1..]), z);
    AheadIsTerminal(m, YieldAll(f[1..]), z);
    NextIsNotStart(m.g, it);
    NodeSpellsNonterminal(m.g, rhs[it.dot], f[0]);
    NodeRule(m.g, f[0]);
    if f[0].Node? {
      Expected(m, q, c.stack, form, it, z, f[0].rule, f[1..]);
    }
  }

  lemma NodeRule(g: Grammar, t: Tree)
    requires WfTree(g, t)
    ensures t.Node? ==> t.rule < |g.rules| && Root(g, t) == g.rules[t.rule].lhs
  {
  }

  lemma AtTerminal(m: Machine, q: Sets, st: seq<Entry>, form: seq<nat>, it: Item, z: nat)
    requires At(m, q, st, form, it, z)
    ensures z < m.g.nterminal
  {
  }

  // ----- Sentences -----

  lemma StartAt(m: Machine, q: Sets, r: nat)
    requires Setting(m, q) && r < |m.g.rules| && m.g.rules[r].lhs == m.g.start
    ensures At(m, q, [Entry(0, 0)], [], Item(r, 0), 0)
  {
    hide Usable, Collection, Partial, Faithful, SeededBy, ClosureLink, ShiftLink;
    SettingParts(m, q);
    StartState(m);
    LevelState(m, 0);
    assert Item(r, 0) in ItemSet(m.a.states[0].basis);
    assert Item(r, 0) in ItemSet(m.a.states[0].items);
    assert Seeded(m.g, q.lam, q.first, m.a, Cfg(0, Item(r, 0)), 0);
  }

  lemma StartState(m: Machine)
    requires Usable(m)
    ensures |m.a.states| > 0 && ItemSet(m.a.states[0].basis) == StartItems(m.g) && StateOk(m.g, m.a.states[0])
    ensures m.tb.nstate > 0 && m.tb.depth > 0
  {
    hide StateOk, Sane, RowOk;
    SizesAgree(m);
  }

  /** The last turn of a successful parse. */
  lemma AcceptTurn(m: Machine, q: Sets, c: Config, form: seq<nat>, r: nat)
    requires Setting(m, q) && r < |m.g.rules| && m.g.rules[r].lhs == m.g.start
    requires At(m, q, c.stack, form, Item(r, |m.g.rules[r].rhs|), 0) && Pending(m, c, 0)
    ensures TablesUsable(m.tb) && var d := Step(m.tb, c);
      d.stack == [] && d.log == c.log + [Reduced(r), Accepted] && Clean(d.log) && Did(c, d, [], [r])
  {
    hide Setting, Usable, StackOf, Moves, Step, ReduceStep, SpellsAll, Toks, Reds, Clean;
    SettingParts(m, q);
    ReduceNode(m, q, c, form, r, 0);
    ReduceShape(m, c, form, r);
    TopInRange(m, c.stack, form);
    var d := Step(m.tb, c);
    assert d.log == c.log + [Reduced(r)] + [Accepted] == c.log + [Reduced(r), Accepted];
    LogAppend(c.log, Reduced(r));
    LogAppend(c.log + [Reduced(r)], Accepted);
    assert Toks(d.log) == Toks(c.log) + [] && Reds(d.log) == [r] + Reds(c.log);
  }

  /** What a complete parse of `w` by the rules `rs` looks like. */
  ghost predicate Parses(c: Config, w: seq<nat>, rs: seq<nat>) {
    && c.stack == [] && c.log != [] && c.log[|c.log| - 1] == Accepted
    && Clean(c.log) && Toks(c.log) == w && Reds(c.log) == rs
  }

  /** Completeness.  Fed with a sentence and the end of input, a parser whose stack is deep enough
      accepts without an error, and its reductions are the rightmost derivation of the given
      parse tree, backwards. */
  lemma SentenceAccepted(m: Machine, q: Sets, t: Tree, w: seq<nat>) returns (limit: nat)
    requires Setting(m, q) && ParseOf(m.g, t, w) && NeedAll(t.kids) < m.tb.depth
    ensures TablesUsable(m.tb)
    ensures forall k: nat | k >= limit :: Parses(Session(m.tb, Idle(m.tb), w + [0], k), w, Rules(t))
  {
    hide Setting, Usable, Walk, Clean, At, Session, Step;
    SettingParts(m, q);
    var r, c0 := t.rule, Idle(m.tb);
    StartAt(m, q, r);
    var c := Begin(c0, Ahead(w, 0));
    AheadIsTerminal(m, w, 0);
    EmptyClean();
    assert m.g.rules[r].rhs[0..] == m.g.rules[r].rhs;
    var d, form := ParseForest(m, q, c, [], Item(r, 0), 0, t.kids);
    AtNonempty(m, q, d.stack, form, Item(r, |m.g.rules[r].rhs|), 0);
    AcceptTurn(m, q, d, form, r);
    WalkStep(m.tb, d);
    var e := Step(m.tb, d);
    WalkTrans(m.tb, c, Later(w, 0), d, [], e);
    DidTrans(c, d, e, w, RulesAll(t.kids), [], [r]);
    assert Later(w, 0) + [] == Later(w, 0) && [Ahead(w, 0)] + Later(w, 0) == w + [0];
    limit := WalkIsSession(m.tb, c0, Ahead(w, 0), Later(w, 0), e);
    assert Parses(e, w, Rules(t));
  }

  lemma EmptyClean()
    ensures Clean([]) && Toks([]) == [] && Reds([]) == []
  {
  }

  lemma AtNonempty(m: Machine, q: Sets, st: seq<Entry>, form: seq<nat>, it: Item, z: nat)
    requires At(m, q, st, form, it, z)
    ensures st != []
  {
  }
}

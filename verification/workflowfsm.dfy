/**
 * The generated library tool `build_workflow_state_machine`: it writes the
 * Python source of a state-machine class. Transitions are grouped by method
 * name in order of first appearance; each method either guards on the
 * merged from-states (one transition) or chains `if`/`elif` branches (several
 * transitions), raises the custom exception otherwise, and records the new
 * state in the history.
 */
module WorkflowFsm {
  import opened Strings

  datatype Transition = Transition(methodName: string, fromStates: seq<string>, toState: string)

  /** One `(from_states, to_state)` pair collected under a method name. */
  datatype Branch = Branch(fromStates: seq<string>, toState: string)

  predicate NoDup<T(==)>(xs: seq<T>) {
    forall i, j :: 0 <= i < j < |xs| ==> xs[i] != xs[j]
  }

  /** The distinct items of `xs` in order of first appearance. */
  function Dedup<T(==,!new)>(xs: seq<T>): (d: seq<T>)
    ensures forall x :: x in d <==> x in xs
    ensures NoDup(d)
    ensures |d| <= |xs|
  {
    if xs == [] then []
    else
      var d := Dedup(xs[..|xs| - 1]);
      var x := xs[|xs| - 1];
      assert xs == xs[..|xs| - 1] + [x];
      if x in d then d else d + [x]
  }

  function Methods(ts: seq<Transition>): (ms: seq<string>)
    ensures |ms| == |ts| && forall i :: 0 <= i < |ts| ==> ms[i] == ts[i].methodName
  {
    seq(|ts|, i requires 0 <= i < |ts| => ts[i].methodName)
  }

  /** The transitions for method `m`, in transition order. */
  function BranchesOf(ts: seq<Transition>, m: string): seq<Branch> {
    if ts == [] then []
    else
      var t := ts[|ts| - 1];
      BranchesOf(ts[..|ts| - 1], m) + (if t.methodName == m then [Branch(t.fromStates, t.toState)] else [])
  }

  /** All from-states of a method's branches, concatenated in order (`all_from`). */
  function AllFrom(bs: seq<Branch>): seq<string> {
    if bs == [] then [] else AllFrom(bs[..|bs| - 1]) + bs[|bs| - 1].fromStates
  }

  /** Python's `repr` of a list of strings. */
  function ListRepr(xs: seq<string>): string {
    "[" + ReprItems(xs) + "]"
  }

  /** The items of a list's `repr`, each quoted, separated by `, `. */
  function ReprItems(xs: seq<string>): string {
    if xs == [] then []
    else if |xs| == 1 then Repr(xs[0])
    else ReprItems(xs[..|xs| - 1]) + ", " + Repr(xs[|xs| - 1])
  }

  function Header(className: string, initialState: string, exceptionName: string): seq<string> {
    ["class " + exceptionName + "(Exception):", "    pass", "", "",
     "class " + className + ":", "    def __init__(self):",
     "        self._state = '" + initialState + "'",
     "        self._history = ['" + initialState + "']", "",
     "    @property", "    def state(self):", "        return self._state", "",
     "    @property", "    def history(self):", "        return list(self._history)", ""]
  }

  /** How a method definition line starts; then the indentation of its statements and of a statement nested in an `if`. */
  const DEF_PREFIX: string := "    def "
  const BODY_INDENT: string := "        "
  const NESTED_INDENT: string := "            "

  function DefLine(m: string): string {
    DEF_PREFIX + (m + "(self):")
  }

  function RaiseLine(exceptionName: string, m: string): string {
    NESTED_INDENT + ("raise " + exceptionName + "(f'Cannot " + m + " from {self._state}')")
  }

  function SetStateLine(indent: string, toState: string): string {
    indent + ("self._state = '" + toState + "'")
  }

  /** The guard of a method with a single transition: the state must be among its from-states. */
  function GuardLine(unique: seq<string>): string {
    BODY_INDENT + ("if self._state not in " + ListRepr(unique) + ":")
  }

  /** The test of a method's `i`-th branch: `if` for the first, `elif` for every later one. */
  function BranchTest(first: bool, fromStates: seq<string>): string {
    BODY_INDENT + ((if first then "if" else "elif") + " self._state in " + ListRepr(fromStates) + ":")
  }

  const ELSE_LINE: string := BODY_INDENT + "else:"

  const HISTORY_LINE: string := BODY_INDENT + "self._history.append(self._state)"

  /** The two lines of the `i`-th branch of a method with several transitions. */
  function BranchLines(bs: seq<Branch>, i: nat): seq<string>
    requires i < |bs|
  {
    [BranchTest(i == 0, bs[i].fromStates), SetStateLine(NESTED_INDENT, bs[i].toState)]
  }

  /** The branch lines of the first `n` branches. */
  function Branches(bs: seq<Branch>, n: nat): seq<string>
    requires n <= |bs|
  {
    if n == 0 then [] else Branches(bs, n - 1) + BranchLines(bs, n - 1)
  }

  function Body(m: string, bs: seq<Branch>, exceptionName: string): seq<string> {
    if |bs| == 1 then
      [GuardLine(Dedup(AllFrom(bs))),
       RaiseLine(exceptionName, m),
       SetStateLine(BODY_INDENT, bs[0].toState)]
    else
      Branches(bs, |bs|) + [ELSE_LINE, RaiseLine(exceptionName, m)]
  }

  function Block(m: string, bs: seq<Branch>, exceptionName: string): seq<string> {
    [DefLine(m)] + Body(m, bs, exceptionName) + [HISTORY_LINE, ""]
  }

  /** The method blocks for the first `n` method names. */
  function Blocks(keys: seq<string>, ts: seq<Transition>, exceptionName: string): seq<string> {
    if keys == [] then []
    else Blocks(keys[..|keys| - 1], ts, exceptionName) + Block(keys[|keys| - 1], BranchesOf(ts, keys[|keys| - 1]), exceptionName)
  }

  /** The generated source, line by line; `states` plays no part in it. */
  function SourceLines(className: string, initialState: string, ts: seq<Transition>, exceptionName: string): seq<string> {
    Header(className, initialState, exceptionName) + Blocks(Dedup(Methods(ts)), ts, exceptionName)
  }

  /** Filling `method_map`: one key per method name, in order of first appearance, with its transitions in order. */
  method GroupByMethod(ts: seq<Transition>) returns (keys: seq<string>, groups: map<string, seq<Branch>>)
    ensures keys == Dedup(Methods(ts))
    ensures forall m :: m in groups <==> m in keys
    ensures forall m :: m in groups ==> groups[m] == BranchesOf(ts, m) && groups[m] != []
  {
    keys, groups := [], map[];
    for i := 0 to |ts|
      invariant Grouped(ts[..i], keys, groups)
    {
      var t := ts[i];
      var sofar := [];
      if t.methodName in groups {
        sofar := groups[t.methodName];
      }
      GroupStep(ts, i, keys, groups);
      if t.methodName !in groups {
        keys := keys + [t.methodName];
      }
      groups := groups[t.methodName := sofar + [Branch(t.fromStates, t.toState)]];
    }
    assert ts[..|ts|] == ts;
  }

  /** The loop invariant of `GroupByMethod` after the transitions `ts` have been grouped. */
  ghost predicate Grouped(ts: seq<Transition>, keys: seq<string>, groups: map<string, seq<Branch>>) {
    && keys == Dedup(Methods(ts))
    && (forall m :: m in groups <==> m in keys)
    && (forall m :: m in groups ==> groups[m] == BranchesOf(ts, m) && groups[m] != [])
  }

  /** Grouping one more transition keeps `Grouped`. */
  lemma {:induction false} GroupStep(ts: seq<Transition>, i: nat, keys: seq<string>, groups: map<string, seq<Branch>>)
    requires i < |ts| && Grouped(ts[..i], keys, groups)
    ensures var t := ts[i];
            var sofar := if t.methodName in groups then groups[t.methodName] else [];
            Grouped(ts[..i + 1], if t.methodName in groups then keys else keys + [t.methodName],
                    groups[t.methodName := sofar + [Branch(t.fromStates, t.toState)]])
  {
    var t := ts[i];
    var n := t.methodName;
    var sofar := if n in groups then groups[n] else [];
    var keys' := if n in groups then keys else keys + [n];
    var groups' := groups[n := sofar + [Branch(t.fromStates, t.toState)]];
    DedupStep(ts, i);
    assert keys' == Dedup(Methods(ts[..i + 1]));
    forall m | m in groups'
      ensures groups'[m] == BranchesOf(ts[..i + 1], m) && groups'[m] != []
    {
      BranchesOfStep(ts, i, m);
      if m == n && n !in groups {
        BranchesOfAbsent(ts[..i], n);
      }
    }
  }

  /** A method name that no transition uses has no branches. */
  lemma {:induction false} BranchesOfAbsent(ts: seq<Transition>, m: string)
    requires m !in Methods(ts)
    ensures BranchesOf(ts, m) == []
  {
    if ts != [] {
      var p := ts[..|ts| - 1];
      assert Methods(ts)[..|ts| - 1] == Methods(p);
      assert ts[|ts| - 1].methodName == Methods(ts)[|ts| - 1];
      BranchesOfAbsent(p, m);
    }
  }

  lemma {:induction false} DedupStep(ts: seq<Transition>, i: nat)
    requires i < |ts|
    ensures var d := Dedup(Methods(ts[..i]));
            Dedup(Methods(ts[..i + 1])) == if ts[i].methodName in d then d else d + [ts[i].methodName]
  {
    var p := ts[..i + 1];
    assert p[..|p| - 1] == ts[..i];
    assert Methods(p)[..|p| - 1] == Methods(ts[..i]);
  }

  lemma {:induction false} BranchesOfStep(ts: seq<Transition>, i: nat, m: string)
    requires i < |ts|
    ensures BranchesOf(ts[..i + 1], m)
              == BranchesOf(ts[..i], m) + (if ts[i].methodName == m then [Branch(ts[i].fromStates, ts[i].toState)] else [])
  {
    var p := ts[..i + 1];
    assert p[..|p| - 1] == ts[..i];
  }

  lemma {:induction false} BlocksStep(keys: seq<string>, k: nat, ts: seq<Transition>, exceptionName: string)
    requires k < |keys|
    ensures Blocks(keys[..k + 1], ts, exceptionName)
            == Blocks(keys[..k], ts, exceptionName) + Block(keys[k], BranchesOf(ts, keys[k]), exceptionName)
  {
    assert keys[..k + 1][..k] == keys[..k];
  }

  /** Every transition of method `m` is one of its branches, and every branch comes from such a transition. */
  lemma {:induction false} BranchesOfExact(ts: seq<Transition>, m: string, t: Transition)
    ensures t in ts && t.methodName == m ==> Branch(t.fromStates, t.toState) in BranchesOf(ts, m)
    ensures forall b :: b in BranchesOf(ts, m) ==>
              exists u :: u in ts && u.methodName == m && b == Branch(u.fromStates, u.toState)
  {
    if ts != [] {
      var p := ts[..|ts| - 1];
      var last := ts[|ts| - 1];
      assert ts == p + [last];
      BranchesOfExact(p, m, t);
      forall b | b in BranchesOf(ts, m)
        ensures exists u :: u in ts && u.methodName == m && b == Branch(u.fromStates, u.toState)
      {
        if b in BranchesOf(p, m) {
          var u :| u in p && u.methodName == m && b == Branch(u.fromStates, u.toState);
          assert u in ts;
        } else {
          assert last in ts;
        }
      }
    }
  }

  /** The lines a generated file starts with `    def ` (a method definition). */
  predicate IsDefLine(l: string) {
    StartsWith(l, DEF_PREFIX)
  }

  /** The method-definition lines of `ls`, in order. */
  function DefLines(ls: seq<string>): seq<string> {
    if ls == [] then []
    else DefLines(ls[..|ls| - 1]) + (if IsDefLine(ls[|ls| - 1]) then [ls[|ls| - 1]] else [])
  }

  lemma {:induction false} DefLinesConcat(a: seq<string>, b: seq<string>)
    ensures DefLines(a + b) == DefLines(a) + DefLines(b)
  {
    if b == [] {
      assert a + b == a;
    } else {
      var b' := b[..|b| - 1];
      assert (a + b)[..|a + b| - 1] == a + b';
      DefLinesConcat(a, b');
    }
  }

  predicate Indented(l: string) {
    |l| > 4 && l[4] == ' '
  }

  lemma {:induction false} IndentedConcat(indent: string, rest: string)
    requires indent == BODY_INDENT || indent == NESTED_INDENT
    ensures Indented(indent + rest)
  {
    assert (indent + rest)[4] == indent[4];
  }

  lemma {:induction false} BranchesShape(bs: seq<Branch>, n: nat)
    requires n <= |bs|
    ensures |Branches(bs, n)| == 2 * n
    ensures forall i :: 0 <= i < n ==> Branches(bs, n)[2 * i] == BranchTest(i == 0, bs[i].fromStates)
    ensures forall i :: 0 <= i < n ==> Branches(bs, n)[2 * i + 1] == SetStateLine(NESTED_INDENT, bs[i].toState)
  {
    BranchesLength(bs, n);
    forall i | 0 <= i < n
      ensures Branches(bs, n)[2 * i] == BranchTest(i == 0, bs[i].fromStates)
      ensures Branches(bs, n)[2 * i + 1] == SetStateLine(NESTED_INDENT, bs[i].toState)
    {
      BranchAt(bs, n, i);
    }
  }

  lemma {:induction false} BranchesLength(bs: seq<Branch>, n: nat)
    requires n <= |bs|
    ensures |Branches(bs, n)| == 2 * n
  {
    if n > 0 {
      BranchesLength(bs, n - 1);
    }
  }

  /** The two lines of the `i`-th transition sit at positions `2i` and `2i + 1`. */
  lemma {:induction false} BranchAt(bs: seq<Branch>, n: nat, i: nat)
    requires i < n <= |bs|
    ensures |Branches(bs, n)| == 2 * n
    ensures Branches(bs, n)[2 * i] == BranchLines(bs, i)[0]
    ensures Branches(bs, n)[2 * i + 1] == BranchLines(bs, i)[1]
  {
    BranchesLength(bs, n - 1);
    var p := Branches(bs, n - 1);
    var q := BranchLines(bs, n - 1);
    assert Branches(bs, n) == p + q;
    if i < n - 1 {
      BranchAt(bs, n - 1, i);
      assert Branches(bs, n)[2 * i] == p[2 * i] && Branches(bs, n)[2 * i + 1] == p[2 * i + 1];
    } else {
      assert Branches(bs, n)[2 * i] == q[0] && Branches(bs, n)[2 * i + 1] == q[1];
    }
  }

  lemma {:induction false} BranchesIndented(bs: seq<Branch>, n: nat)
    requires n <= |bs|
    ensures forall l :: l in Branches(bs, n) ==> Indented(l)
  {
    if n > 0 {
      BranchesIndented(bs, n - 1);
      var i := n - 1;
      IndentedConcat(BODY_INDENT, (if i == 0 then "if" else "elif") + " self._state in " + ListRepr(bs[i].fromStates) + ":");
      IndentedConcat(NESTED_INDENT, "self._state = '" + bs[i].toState + "'");
    }
  }

  /**
   * A method with several transitions tests them in transition order: the
   * first with `if`, every later one with `elif`, each setting its own target
   * state, and raises only after none matched.
   */
  lemma {:induction false} BranchesInOrder(m: string, bs: seq<Branch>, exceptionName: string)
    requires |bs| >= 2
    ensures var body := Body(m, bs, exceptionName);
      |body| == 2 * |bs| + 2
      && (forall i :: 0 <= i < |bs| ==> body[2 * i] == BranchTest(i == 0, bs[i].fromStates))
      && (forall i :: 0 <= i < |bs| ==> body[2 * i + 1] == SetStateLine(NESTED_INDENT, bs[i].toState))
      && body[2 * |bs|] == ELSE_LINE && body[2 * |bs| + 1] == RaiseLine(exceptionName, m)
  {
    BranchesShape(bs, |bs|);
  }

  /** Each method name gets exactly one definition line, in order of first appearance. */
  lemma {:induction false} DefLinesOfBlocks(keys: seq<string>, ts: seq<Transition>, exceptionName: string)
    ensures DefLines(Blocks(keys, ts, exceptionName)) == DefLineSeq(keys)
  {
    if keys != [] {
      var p := keys[..|keys| - 1];
      var m := keys[|keys| - 1];
      DefLinesOfBlocks(p, ts, exceptionName);
      DefLinesConcat(Blocks(p, ts, exceptionName), Block(m, BranchesOf(ts, m), exceptionName));
      DefLinesOfBlock(m, BranchesOf(ts, m), exceptionName);
      DefLineSeqSnoc(keys);
    }
  }

  /** The definition line of each method name, in order. */
  function DefLineSeq(keys: seq<string>): (r: seq<string>)
    ensures |r| == |keys| && forall k :: 0 <= k < |keys| ==> r[k] == DefLine(keys[k])
  {
    seq(|keys|, k requires 0 <= k < |keys| => DefLine(keys[k]))
  }

  lemma {:induction false} DefLineSeqSnoc(keys: seq<string>)
    requires keys != []
    ensures DefLineSeq(keys) == DefLineSeq(keys[..|keys| - 1]) + [DefLine(keys[|keys| - 1])]
  {
  }


  /**
   * The transition blocks define one method per distinct method name of the
   * transitions, and no transition method twice. The header's own methods
   * are covered by `SourceDefinesEachOnce`.
   */
  lemma {:induction false} EachMethodDefinedOnce(ts: seq<Transition>, exceptionName: string)
    ensures var defs := DefLines(Blocks(Dedup(Methods(ts)), ts, exceptionName));
      (forall t :: t in ts ==> DefLine(t.methodName) in defs)
      && NoDup(defs)
  {
    var keys := Dedup(Methods(ts));
    forall t | t in ts ensures t.methodName in keys {
      var i :| 0 <= i < |ts| && ts[i] == t;
      assert Methods(ts)[i] == t.methodName;
    }
    DefsOnce(keys, ts, exceptionName);
  }

  /** The methods the class header defines before any transition method. */
  const HEADER_METHODS: seq<string> := ["__init__", "state", "history"]

  /**
   * The whole generated source defines every method once exactly when no
   * transition's method is named like one the header already defines
   * (`__init__`, `state`, `history`).
   */
  lemma {:induction false} SourceDefinesEachOnce(className: string, initialState: string, ts: seq<Transition>,
                                                 exceptionName: string)
    ensures NoDup(DefLines(SourceLines(className, initialState, ts, exceptionName)))
      <==> (forall t :: t in ts ==> t.methodName !in HEADER_METHODS)
  {
    SourceDefLines(className, initialState, ts, exceptionName);
    DefLineSeqNoDup(HEADER_METHODS + Dedup(Methods(ts)));
    HeaderAndKeysNoDup(ts);
  }

  lemma {:induction false} DefLineSeqNoDup(xs: seq<string>)
    ensures NoDup(DefLineSeq(xs)) <==> NoDup(xs)
  {
    var defs := DefLineSeq(xs);
    forall i, j | 0 <= i < |xs| && 0 <= j < |xs| ensures defs[i] == defs[j] <==> xs[i] == xs[j] {
      DefLineInjective(xs[i], xs[j]);
    }
  }

  /** The header's names followed by the transition methods repeat nothing exactly when no transition reuses a header name. */
  lemma {:induction false} HeaderAndKeysNoDup(ts: seq<Transition>)
    ensures NoDup(HEADER_METHODS + Dedup(Methods(ts))) <==> (forall t :: t in ts ==> t.methodName !in HEADER_METHODS)
  {
    var keys := Dedup(Methods(ts));
    var all := HEADER_METHODS + keys;
    if forall t :: t in ts ==> t.methodName !in HEADER_METHODS {
      forall i, j | 0 <= i < j < |all| ensures all[i] != all[j] {
        if j >= 3 {
          assert all[j] == keys[j - 3];
          assert all[j] in Methods(ts);
          var k :| 0 <= k < |ts| && Methods(ts)[k] == all[j];
          assert ts[k] in ts;
          if i >= 3 {
            assert all[i] == keys[i - 3];
          }
        }
      }
    } else {
      var t :| t in ts && t.methodName in HEADER_METHODS;
      var k :| 0 <= k < |ts| && ts[k] == t;
      assert Methods(ts)[k] == t.methodName;
      assert t.methodName in keys;
      var j :| 0 <= j < |keys| && keys[j] == t.methodName;
      var i :| 0 <= i < 3 && HEADER_METHODS[i] == t.methodName;
      assert all[i] == all[3 + j];
    }
  }

  /** The definition lines of the generated source: the header's three, then one per transition method. */
  lemma {:induction false} SourceDefLines(className: string, initialState: string, ts: seq<Transition>, exceptionName: string)
    ensures DefLines(SourceLines(className, initialState, ts, exceptionName))
              == DefLineSeq(HEADER_METHODS + Dedup(Methods(ts)))
  {
    HeaderDefLines(className, initialState, exceptionName);
    DefLinesAfter(Header(className, initialState, exceptionName), Dedup(Methods(ts)), ts, exceptionName);
  }

  lemma {:induction false} DefLinesAfter(h: seq<string>, keys: seq<string>, ts: seq<Transition>, exceptionName: string)
    requires DefLines(h) == DefLineSeq(HEADER_METHODS)
    ensures DefLines(h + Blocks(keys, ts, exceptionName)) == DefLineSeq(HEADER_METHODS + keys)
  {
    DefLinesConcat(h, Blocks(keys, ts, exceptionName));
    DefLinesOfBlocks(keys, ts, exceptionName);
    assert DefLineSeq(HEADER_METHODS + keys) == DefLineSeq(HEADER_METHODS) + DefLineSeq(keys);
  }

  lemma {:induction false} HeaderDefLines(className: string, initialState: string, exceptionName: string)
    ensures DefLines(Header(className, initialState, exceptionName)) == DefLineSeq(HEADER_METHODS)
  {
    HeaderSplit(className, initialState, exceptionName);
    HeaderTopDefs(className, initialState, exceptionName);
    HeaderBottomDefs();
    DefLinesConcat(HeaderTop(className, initialState, exceptionName), HeaderBottom());
  }

  /** The header up to the `state` property, and the rest of it. */
  function HeaderTop(className: string, initialState: string, exceptionName: string): seq<string> {
    ["class " + exceptionName + "(Exception):", "    pass", "", "", "class " + className + ":"]
    + [DefLine("__init__")]
    + ["        self._state = '" + initialState + "'", "        self._history = ['" + initialState + "']", "",
       "    @property"]
  }

  function HeaderBottom(): seq<string> {
    [DefLine("state")] + ["        return self._state", "", "    @property"]
    + [DefLine("history")] + ["        return list(self._history)", ""]
  }

  lemma {:induction false} HeaderSplit(className: string, initialState: string, exceptionName: string)
    ensures Header(className, initialState, exceptionName) == HeaderTop(className, initialState, exceptionName) + HeaderBottom()
  {
    assert DefLine("__init__") == "    def __init__(self):";
    assert DefLine("state") == "    def state(self):";
    assert DefLine("history") == "    def history(self):";
  }

  lemma {:induction false} HeaderTopDefs(className: string, initialState: string, exceptionName: string)
    ensures DefLines(HeaderTop(className, initialState, exceptionName)) == [DefLine("__init__")]
  {
    var a := ["class " + exceptionName + "(Exception):", "    pass", "", "", "class " + className + ":"];
    var c := ["        self._state = '" + initialState + "'", "        self._history = ['" + initialState + "']", "",
              "    @property"];
    ClassLinesNoDefs(className, exceptionName);
    StateLinesNoDefs(initialState);
    SingleDef("__init__");
    DefLinesConcat(a, [DefLine("__init__")]);
    DefLinesConcat(a + [DefLine("__init__")], c);
  }

  lemma {:induction false} HeaderBottomDefs()
    ensures DefLines(HeaderBottom()) == [DefLine("state"), DefLine("history")]
  {
    var e := ["        return self._state", "", "    @property"];
    var g := ["        return list(self._history)", ""];
    assert e[0][4] == ' ' && e[2][4] == '@' && g[0][4] == ' ' && DEF_PREFIX[4] == 'd';
    NoDefs(e);
    NoDefs(g);
    SingleDef("state");
    SingleDef("history");
    DefLinesConcat([DefLine("state")], e);
    DefLinesConcat([DefLine("state")] + e, [DefLine("history")]);
    DefLinesConcat([DefLine("state")] + e + [DefLine("history")], g);
  }

  lemma {:induction false} ClassLinesNoDefs(className: string, exceptionName: string)
    ensures DefLines(["class " + exceptionName + "(Exception):", "    pass", "", "", "class " + className + ":"]) == []
  {
    var a := ["class " + exceptionName + "(Exception):", "    pass", "", "", "class " + className + ":"];
    assert a[0][0] == 'c' && a[4][0] == 'c' && DEF_PREFIX[0] == ' ' && DEF_PREFIX[4] == 'd';
    NoDefs(a);
  }

  lemma {:induction false} StateLinesNoDefs(initialState: string)
    ensures DefLines(["        self._state = '" + initialState + "'", "        self._history = ['" + initialState + "']", "",
                      "    @property"]) == []
  {
    var c := ["        self._state = '" + initialState + "'", "        self._history = ['" + initialState + "']", "",
              "    @property"];
    assert c[0][4] == ' ' && c[1][4] == ' ' && DEF_PREFIX[4] == 'd';
    NoDefs(c);
  }

  lemma {:induction false} SingleDef(m: string)
    ensures DefLines([DefLine(m)]) == [DefLine(m)]
  {
    StartsWithConcat(DEF_PREFIX, m + "(self):");
    assert [DefLine(m)][..0] == [];
  }

  lemma {:induction false} NoDefs(ls: seq<string>)
    requires forall k :: 0 <= k < |ls| ==> !IsDefLine(ls[k])
    ensures DefLines(ls) == []
  {
    if ls != [] {
      NoDefs(ls[..|ls| - 1]);
    }
  }

  lemma {:induction false} DefsOnce(keys: seq<string>, ts: seq<Transition>, exceptionName: string)
    requires NoDup(keys)
    ensures var defs := DefLines(Blocks(keys, ts, exceptionName));
      (forall m :: m in keys ==> DefLine(m) in defs) && NoDup(defs)
  {
    DefLinesOfBlocks(keys, ts, exceptionName);
    var defs := DefLines(Blocks(keys, ts, exceptionName));
    forall m | m in keys ensures DefLine(m) in defs {
      var k :| 0 <= k < |keys| && keys[k] == m;
      assert defs[k] == DefLine(m);
    }
    forall i, j | 0 <= i < j < |defs| ensures defs[i] != defs[j] {
      DefLineInjective(keys[i], keys[j]);
    }
  }

  lemma {:induction false} DefLineInjective(a: string, b: string)
    ensures DefLine(a) == DefLine(b) ==> a == b
  {
    if DefLine(a) == DefLine(b) {
      assert |a| == |b|;
      assert a == DefLine(a)[|DEF_PREFIX|..|DEF_PREFIX| + |a|];
      assert b == DefLine(b)[|DEF_PREFIX|..|DEF_PREFIX| + |b|];
    }
  }

  lemma {:induction false} DefLinesOfBlock(m: string, bs: seq<Branch>, exceptionName: string)
    ensures DefLines(Block(m, bs, exceptionName)) == [DefLine(m)]
  {
    var rest := Body(m, bs, exceptionName) + [HISTORY_LINE, ""];
    RestHasNoDefs(m, bs, exceptionName);
    DefLinesConcat([DefLine(m)], rest);
    assert Block(m, bs, exceptionName) == [DefLine(m)] + rest;
    StartsWithConcat(DEF_PREFIX, m + "(self):");
    assert [DefLine(m)][..0] == [];
  }

  /** Below its `def` line, a method block holds no other definition line. */
  lemma {:induction false} RestHasNoDefs(m: string, bs: seq<Branch>, exceptionName: string)
    ensures DefLines(Body(m, bs, exceptionName) + [HISTORY_LINE, ""]) == []
  {
    var rest := Body(m, bs, exceptionName) + [HISTORY_LINE, ""];
    BodyIndented(m, bs, exceptionName);
    IndentedConcat(BODY_INDENT, "self._history.append(self._state)");
    assert forall l :: l in rest ==> l == "" || Indented(l);
    NotDefsExceptBlank(rest);
  }


  lemma {:induction false} BodyIndented(m: string, bs: seq<Branch>, exceptionName: string)
    ensures forall l :: l in Body(m, bs, exceptionName) ==> Indented(l)
  {
    IndentedConcat(NESTED_INDENT, "raise " + exceptionName + "(f'Cannot " + m + " from {self._state}')");
    if |bs| == 1 {
      IndentedConcat(BODY_INDENT, "if self._state not in " + ListRepr(Dedup(AllFrom(bs))) + ":");
      IndentedConcat(BODY_INDENT, "self._state = '" + bs[0].toState + "'");
    } else {
      BranchesIndented(bs, |bs|);
      IndentedConcat(BODY_INDENT, "else:");
    }
  }

  lemma {:induction false} NotDefsExceptBlank(ls: seq<string>)
    requires forall l :: l in ls ==> l == "" || Indented(l)
    ensures DefLines(ls) == []
  {
    if ls != [] {
      NotDefsExceptBlank(ls[..|ls| - 1]);
      assert ls[|ls| - 1] in ls;
      assert DEF_PREFIX[4] == 'd';
    }
  }

  /** The lines for one method of `method_map`, built as the generator appends them. */
  method EmitBlock(m: string, entries: seq<Branch>, exceptionName: string) returns (block: seq<string>)
    ensures block == Block(m, entries, exceptionName)
  {
    var allFrom: seq<string> := [];
    for e := 0 to |entries|
      invariant allFrom == AllFrom(entries[..e])
    {
      assert entries[..e + 1][..e] == entries[..e];
      allFrom := allFrom + entries[e].fromStates;
    }
    assert entries[..|entries|] == entries;
    var unique := Dedup(allFrom);
    var body: seq<string>;
    if |entries| == 1 {
      body := [GuardLine(unique), RaiseLine(exceptionName, m), SetStateLine(BODY_INDENT, entries[0].toState)];
    } else {
      body := [];
      for i := 0 to |entries|
        invariant body == Branches(entries, i)
      {
        body := body + BranchLines(entries, i);
      }
      body := body + [ELSE_LINE, RaiseLine(exceptionName, m)];
    }
    block := [DefLine(m)] + body + [HISTORY_LINE, ""];
  }

  /** Appends the block of every method name in `keys`, in order. */
  method AppendBlocks(start: seq<string>, keys: seq<string>, groups: map<string, seq<Branch>>,
                      ts: seq<Transition>, exceptionName: string)
    returns (lines: seq<string>)
    requires forall m :: m in keys ==> m in groups && groups[m] == BranchesOf(ts, m)
    ensures lines == start + Blocks(keys, ts, exceptionName)
  {
    lines := start;
    ghost var blocks: seq<string> := [];
    for k := 0 to |keys|
      invariant blocks == Blocks(keys[..k], ts, exceptionName)
      invariant lines == start + blocks
    {
      var block := EmitBlock(keys[k], groups[keys[k]], exceptionName);
      BlocksStep(keys, k, ts, exceptionName);
      ConcatAssoc(start, blocks, block);
      lines := lines + block;
      blocks := blocks + block;
    }
    assert keys[..|keys|] == keys;
  }

  /** `build_workflow_state_machine`: builds the lines block by block and joins them with newlines. */
  method BuildWorkflowStateMachine(className: string, states: seq<string>, initialState: string,
                                   transitions: seq<Transition>, exceptionName: string)
    returns (code: string)
    ensures code == Join("\n", SourceLines(className, initialState, transitions, exceptionName))
  {
    var keys, groups := GroupByMethod(transitions);
    var lines := Header(className, initialState, exceptionName);
    lines := AppendBlocks(lines, keys, groups, transitions, exceptionName);
    code := Join("\n", lines);
  }
}

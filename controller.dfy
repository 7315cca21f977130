/**
 * Controllers, routes and the middleware onion of pkg/flux/controller.go.
 *
 * A handler is a function from the request state (which carries a trace of
 * what ran) to an outcome; a middleware maps a handler to a handler.  The
 * route table a controller owns is a map keyed "METHOD:path" whose values
 * are Route objects, because Go hands out *Route pointers that fluent
 * setters later update in place.
 */
module Controllers {
  import opened Wrappers
  import opened Str
  import opened AppErrors

  // ---------------------------------------------------------------- handlers

  /** What a handler or middleware did, in order. */
  datatype Event = Before(tag: string) | After(tag: string) | Ran(tag: string) | Halted(tag: string)

  datatype Request = Request(verb: string, path: string, headers: map<string, string>, ip: string)

  /** The per-request context: the request, what has been written to the response, the locals and the trace. */
  datatype State = State(
    req: Request,
    respHeaders: map<string, string>,
    locals: map<string, Value>,
    status: int,
    trace: seq<Event>)

  datatype Outcome = Outcome(state: State, err: Option<GoError>)

  /** HandlerFunc func(*Context) error */
  type HandlerFunc = State -> Outcome

  /** MiddlewareFunc func(HandlerFunc) HandlerFunc */
  type MiddlewareFunc = HandlerFunc -> HandlerFunc

  /** The onion: Compose([m1, ..., mn], h) == m1(m2(...mn(h))). */
  function Compose(mws: seq<MiddlewareFunc>, final: HandlerFunc): HandlerFunc
  {
    if mws == [] then final else mws[0](Compose(mws[1..], final))
  }

  /**
   * The chain built in registerRoute's per-request closure: the reverse
   * loop wraps the last middleware first, so the first one is outermost;
   * with no middleware the final handler runs directly.
   */
  method BuildChain(mws: seq<MiddlewareFunc>, final: HandlerFunc) returns (chain: HandlerFunc)
    ensures chain == Compose(mws, final)
    ensures mws == [] ==> chain == final
  {
    if |mws| > 0 {
      chain := final;
      var i := |mws| - 1;
      while i >= 0
        invariant -1 <= i < |mws|
        invariant chain == Compose(mws[i + 1..], final)
      {
        assert mws[i..][1..] == mws[i + 1..];
        chain := mws[i](chain);
        i := i - 1;
      }
      assert mws[0..] == mws;
    } else {
      chain := final;
    }
  }

  /** Appending middleware nests it inside the existing ones. */
  lemma {:induction false} ComposeAppend(a: seq<MiddlewareFunc>, b: seq<MiddlewareFunc>, final: HandlerFunc)
    ensures Compose(a + b, final) == Compose(a, Compose(b, final))
    decreases |a|
  {
    if a != [] {
      assert (a + b)[1..] == a[1..] + b;
      ComposeAppend(a[1..], b, final);
    } else {
      assert a + b == b;
    }
  }

  function AddTrace(s: State, e: Event): State
  {
    s.(trace := s.trace + [e])
  }

  /** A middleware that records its entry, calls the next handler and records its exit. */
  function Traced(tag: string): MiddlewareFunc
  {
    (next: HandlerFunc) => (s: State) =>
      var o := next(AddTrace(s, Before(tag)));
      o.(state := AddTrace(o.state, After(tag)))
  }

  /** A middleware that answers by itself and never calls the next handler. */
  function Halting(tag: string): MiddlewareFunc
  {
    (next: HandlerFunc) => (s: State) => Outcome(AddTrace(s, Halted(tag)), None)
  }

  /** A final handler that records that it ran. */
  function Terminal(tag: string): HandlerFunc
  {
    (s: State) => Outcome(AddTrace(s, Ran(tag)), None)
  }

  function TracedAll(tags: seq<string>): (r: seq<MiddlewareFunc>)
    ensures |r| == |tags|
  {
    if tags == [] then [] else [Traced(tags[0])] + TracedAll(tags[1..])
  }

  function Befores(tags: seq<string>): seq<Event>
  {
    if tags == [] then [] else [Before(tags[0])] + Befores(tags[1..])
  }

  /** The exit events, innermost first. */
  function AftersReversed(tags: seq<string>): seq<Event>
  {
    if tags == [] then [] else AftersReversed(tags[1..]) + [After(tags[0])]
  }

  /** Onion order: every middleware enters in declaration order and exits in reverse order around the final handler. */
  lemma {:induction false} OnionTrace(tags: seq<string>, f: string, s: State)
    ensures Compose(TracedAll(tags), Terminal(f))(s)
         == Outcome(s.(trace := s.trace + Befores(tags) + [Ran(f)] + AftersReversed(tags)), None)
    decreases |tags|
  {
    if tags != [] {
      var inner := Compose(TracedAll(tags[1..]), Terminal(f));
      assert TracedAll(tags)[1..] == TracedAll(tags[1..]);
      assert Compose(TracedAll(tags), Terminal(f)) == Traced(tags[0])(inner);
      var s1 := AddTrace(s, Before(tags[0]));
      OnionTrace(tags[1..], f, s1);
      var o := inner(s1);
      var mid := s1.trace + Befores(tags[1..]) + [Ran(f)] + AftersReversed(tags[1..]);
      assert o == Outcome(s1.(trace := mid), None);
      TracedStep(tags[0], inner, s);
      OnionEvents(s.trace, tags, f);
      assert s1.(trace := mid).(trace := mid + [After(tags[0])]) == s.(trace := mid + [After(tags[0])]);
    }
  }

  /** The events of one more layer: its entry before the inner events and its exit after them. */
  lemma OnionEvents(t: seq<Event>, tags: seq<string>, f: string)
    requires tags != []
    ensures (t + [Before(tags[0])]) + Befores(tags[1..]) + [Ran(f)] + AftersReversed(tags[1..]) + [After(tags[0])]
         == t + Befores(tags) + [Ran(f)] + AftersReversed(tags)
  {
    assert Befores(tags) == [Before(tags[0])] + Befores(tags[1..]);
    assert AftersReversed(tags) == AftersReversed(tags[1..]) + [After(tags[0])];
  }

  lemma TracedStep(tag: string, next: HandlerFunc, s: State)
    ensures Traced(tag)(next)(s)
         == var o := next(AddTrace(s, Before(tag))); o.(state := AddTrace(o.state, After(tag)))
  {
  }

  /** With middleware [A, B] the trace is A-before, B-before, final, B-after, A-after. */
  lemma OnionTwo(s: State)
    ensures Compose([Traced("A"), Traced("B")], Terminal("T"))(s).state.trace
         == s.trace + [Before("A"), Before("B"), Ran("T"), After("B"), After("A")]
  {
    OnionTrace(["A", "B"], "T", s);
    assert TracedAll(["A", "B"]) == [Traced("A"), Traced("B")];
  }

  /** A middleware that answers by itself hides everything inside it. */
  lemma ShortCircuit(tag: string, rest: seq<MiddlewareFunc>, f: HandlerFunc, g: HandlerFunc, s: State)
    ensures Compose([Halting(tag)] + rest, f)(s) == Compose([Halting(tag)], g)(s)
    ensures Compose([Halting(tag)] + rest, f)(s).state.trace == s.trace + [Halted(tag)]
  {
    assert ([Halting(tag)] + rest)[0] == Halting(tag);
  }

  // ------------------------------------------------------------ route names

  function Concat(parts: seq<string>): string
  {
    if parts == [] then [] else Concat(parts[..|parts| - 1]) + parts[|parts| - 1]
  }

  /** splitCamelCase, stated from the left: a new part starts at each capital after position 0. */
  function SplitCamel(s: string): seq<string>
    decreases |s|
  {
    if s == [] then []
    else
      var p := SplitCamel(s[..|s| - 1]);
      var c := s[|s| - 1];
      if |s| > 1 && IsUpper(c) then p + [[c]]
      else if p == [] then [[c]]
      else p[..|p| - 1] + [p[|p| - 1] + [c]]
  }

  /** The parts of a split: they concatenate to the input, none is empty, each after the first starts with a capital and no capital sits anywhere else. */
  predicate CamelParts(s: string, parts: seq<string>)
  {
    && Concat(parts) == s
    && (forall k :: 0 <= k < |parts| ==> parts[k] != [])
    && (forall k :: 0 < k < |parts| ==> IsUpper(parts[k][0]))
    && (forall k, j :: 0 <= k < |parts| && 0 < j < |parts[k]| ==> !IsUpper(parts[k][j]))
  }

  lemma ConcatSnoc(p: seq<string>, x: string)
    ensures Concat(p + [x]) == Concat(p) + x
  {
    assert (p + [x])[..|p|] == p;
  }

  /** One more character of input: a capital (not at the start) opens a part, anything else extends the last one. */
  lemma SplitCamelSnoc(t: string, c: char)
    ensures SplitCamel(t + [c]) ==
      var p := SplitCamel(t);
      if t != [] && IsUpper(c) then p + [[c]]
      else if p == [] then [[c]]
      else p[..|p| - 1] + [p[|p| - 1] + [c]]
  {
    assert (t + [c])[..|t|] == t;
  }

  /** Only the empty text splits into no parts. */
  lemma SplitCamelEmpty(t: string)
    ensures t == [] <==> SplitCamel(t) == []
  {
  }

  lemma CamelOpenPart(t: string, p: seq<string>, c: char)
    requires CamelParts(t, p) && p != [] && IsUpper(c)
    ensures CamelParts(t + [c], p + [[c]])
  {
    ConcatSnoc(p, [c]);
  }

  lemma CamelExtendPart(t: string, p: seq<string>, c: char)
    requires CamelParts(t, p) && p != [] && !IsUpper(c)
    ensures CamelParts(t + [c], p[..|p| - 1] + [p[|p| - 1] + [c]])
  {
    var q := p[..|p| - 1] + [p[|p| - 1] + [c]];
    ConcatSnoc(p[..|p| - 1], p[|p| - 1] + [c]);
    ConcatSnoc(p[..|p| - 1], p[|p| - 1]);
    assert p[..|p| - 1] + [p[|p| - 1]] == p;
    forall k, j | 0 <= k < |q| && 0 < j < |q[k]|
      ensures !IsUpper(q[k][j])
    {
      if k == |q| - 1 && j == |q[k]| - 1 {
        assert q[k][j] == c;
      } else {
        assert q[k][j] == p[k][j];
      }
    }
  }

  lemma {:induction false} SplitCamelParts(s: string)
    ensures CamelParts(s, SplitCamel(s))
    ensures s != [] <==> SplitCamel(s) != []
    decreases |s|
  {
    if s != [] {
      var t := s[..|s| - 1];
      var c := s[|s| - 1];
      assert s == t + [c];
      SplitCamelParts(t);
      SplitCamelSnoc(t, c);
      var p := SplitCamel(t);
      if t != [] && IsUpper(c) {
        CamelOpenPart(t, p, c);
      } else if p == [] {
        assert t == [];
        CamelSingle(c);
      } else {
        CamelExtendPart(t, p, c);
      }
    }
  }

  lemma CamelSingle(c: char)
    ensures CamelParts([c], [[c]])
  {
    ConcatSnoc([], [c]);
  }

  /** SplitCamel is the only split with the CamelParts properties. */
  lemma {:induction false} CamelPartsUnique(s: string, parts: seq<string>)
    requires CamelParts(s, parts)
    ensures parts == SplitCamel(s)
    decreases |s|
  {
    if parts == [] {
      assert s == [];
    } else if |parts[|parts| - 1]| == 1 {
      var t, init, c := CamelPartsInit(s, parts);
      CamelPartsUnique(t, init);
      SplitCamelSnoc(t, c);
    } else {
      var t, p, c := CamelPartsShorten(s, parts);
      CamelPartsUnique(t, p);
      SplitCamelSnoc(t, c);
    }
  }

  /** Dropping a one-character last part leaves the parts of the text before it; that character is a capital unless it is the whole text. */
  lemma CamelPartsInit(s: string, parts: seq<string>) returns (t: string, init: seq<string>, c: char)
    requires CamelParts(s, parts) && parts != [] && |parts[|parts| - 1]| == 1
    ensures parts == init + [[c]] && s == t + [c] && CamelParts(t, init) && |t| < |s|
    ensures init == [] ==> t == []
    ensures init != [] ==> t != [] && IsUpper(c)
  {
    init := parts[..|parts| - 1];
    c := parts[|parts| - 1][0];
    assert parts[|parts| - 1] == [c];
    assert init + [parts[|parts| - 1]] == parts;
    ConcatSnoc(init, parts[|parts| - 1]);
    t := Concat(init);
    ConcatNonEmpty(init);
  }

  /** Dropping the last character of a longer last part leaves the parts of the text before it; that character is not a capital. */
  lemma CamelPartsShorten(s: string, parts: seq<string>) returns (t: string, p: seq<string>, c: char)
    requires CamelParts(s, parts) && parts != [] && |parts[|parts| - 1]| > 1
    ensures p != [] && p[..|p| - 1] + [p[|p| - 1] + [c]] == parts
    ensures s == t + [c] && CamelParts(t, p) && !IsUpper(c) && |t| < |s|
  {
    var n := |parts|;
    var init := parts[..n - 1];
    var last := parts[n - 1];
    var shorter := last[..|last| - 1];
    c := last[|last| - 1];
    p := init + [shorter];
    assert init + [last] == parts;
    ConcatSnoc(init, last);
    ConcatSnoc(init, shorter);
    assert last == shorter + [c];
    t := Concat(p);
    forall k, j | 0 <= k < |p| && 0 < j < |p[k]|
      ensures !IsUpper(p[k][j])
    {
      assert p[k][j] == parts[k][j];
    }
    assert c == parts[n - 1][|last| - 1];
    assert p[..|p| - 1] == init && p[|p| - 1] + [c] == last;
  }

  lemma {:induction false} ConcatNonEmpty(parts: seq<string>)
    requires forall k :: 0 <= k < |parts| ==> parts[k] != []
    ensures parts != [] ==> Concat(parts) != []
    decreases |parts|
  {
    if parts != [] {
      var n := |parts|;
      ConcatSnoc(parts[..n - 1], parts[n - 1]);
      assert parts[..n - 1] + [parts[n - 1]] == parts;
    }
  }

  /** A non-empty word with no capital after its first character. */
  predicate CamelWord(w: string)
  {
    w != [] && forall k :: 0 < k < |w| ==> !IsUpper(w[k])
  }

  /** A word with no capital after its first character is one part. */
  lemma {:induction false} SplitCamelWord(w: string)
    requires CamelWord(w)
    ensures SplitCamel(w) == [w]
    decreases |w|
  {
    var t := w[..|w| - 1];
    var c := w[|w| - 1];
    assert w == t + [c];
    SplitCamelSnoc(t, c);
    if t != [] {
      SplitCamelWord(t);
    }
  }

  lemma SplitCamelNonEmpty(s: string)
    requires s != []
    ensures SplitCamel(s) != []
  {
    assert s == s[..|s| - 1] + [s[|s| - 1]];
    SplitCamelSnoc(s[..|s| - 1], s[|s| - 1]);
  }

  lemma ExtendLastPart(p: seq<string>, q: seq<string>, c: char)
    requires q != []
    ensures var pq := p + q;
      pq[..|pq| - 1] + [pq[|pq| - 1] + [c]] == p + (q[..|q| - 1] + [q[|q| - 1] + [c]])
  {
    var pq := p + q;
    assert pq[..|pq| - 1] == p + q[..|q| - 1];
  }

  /** Text starting with a capital, after non-empty text, splits on its own. */
  lemma {:induction false} SplitCamelAppend(a: string, b: string)
    requires a != [] && b != [] && IsUpper(b[0])
    ensures SplitCamel(a + b) == SplitCamel(a) + SplitCamel(b)
    decreases |b|
  {
    var t := b[..|b| - 1];
    var c := b[|b| - 1];
    assert b == t + [c];
    if t == [] {
      SplitCamelSnoc(a, c);
      SplitCamelSnoc(t, c);
    } else {
      assert a + b == (a + t) + [c];
      SplitCamelAppend(a, t);
      SplitCamelNonEmpty(t);
      SplitCamelAppendStep(SplitCamel(a), a + t, t, c);
    }
  }

  /** One step of SplitCamelAppend: a character extends both splits alike. */
  lemma SplitCamelAppendStep(pa: seq<string>, at: string, t: string, c: char)
    requires at != [] && t != [] && SplitCamel(t) != []
    requires SplitCamel(at) == pa + SplitCamel(t)
    ensures SplitCamel(at + [c]) == pa + SplitCamel(t + [c])
  {
    SplitCamelSnoc(at, c);
    SplitCamelSnoc(t, c);
    SnocParts(pa, SplitCamel(t), c);
  }

  /** The part lists of the two splits after one more character. */
  lemma SnocParts(pa: seq<string>, q: seq<string>, c: char)
    requires q != []
    ensures var p := pa + q;
      (if IsUpper(c) then p + [[c]] else p[..|p| - 1] + [p[|p| - 1] + [c]])
      == pa + (if IsUpper(c) then q + [[c]] else q[..|q| - 1] + [q[|q| - 1] + [c]])
  {
    if IsUpper(c) {
      assert pa + q + [[c]] == pa + (q + [[c]]);
    } else {
      ExtendLastPart(pa, q, c);
    }
  }

  /** A leading word followed by capitalised text is the first part. */
  lemma SplitCamelCons(w: string, rest: string)
    requires CamelWord(w) && rest != [] && IsUpper(rest[0])
    ensures SplitCamel(w + rest) == [w] + SplitCamel(rest)
  {
    SplitCamelWord(w);
    SplitCamelAppend(w, rest);
  }

  /** splitCamelCase with its builder loop. */
  method SplitCamelCase(s: string) returns (parts: seq<string>)
    ensures parts == SplitCamel(s)
  {
    parts := [];
    var current: string := [];
    var i := 0;
    while i < |s|
      invariant 0 <= i <= |s|
      invariant i == 0 ==> parts == [] && current == []
      invariant i > 0 ==> current != [] && parts + [current] == SplitCamel(s[..i])
    {
      var r := s[i];
      assert s[..i + 1] == s[..i] + [r];
      SplitCamelSnoc(s[..i], r);
      ghost var p := SplitCamel(s[..i]);
      if i > 0 && IsUpper(r) {
        assert s[..i] != [];
        parts := parts + [current];
        current := [r];
        assert parts + [current] == p + [[r]];
      } else if i > 0 {
        assert s[..i] != [];
        assert p[..|p| - 1] == parts && p[|p| - 1] == current;
        current := current + [r];
      } else {
        assert p == [];
        current := [r];
      }
      i := i + 1;
    }
    assert s[..i] == s;
    if |current| > 0 {
      parts := parts + [current];
    }
  }

  /**
   * registerRoute's convention: the first camel word is the verb and the
   * remaining words, slash-joined and lower-cased, are the path ("" when
   * there is only one word).
   */
  function MethodRoute(methodName: string): (r: (string, string))
  {
    var parts := SplitCamel(TrimPrefix(methodName, "Handle"));
    (if |parts| > 0 then ToUpper(parts[0]) else "",
     if |parts| > 1 then "/" + ToLower(Join(parts[1..], "/")) else "")
  }

  /** The route-table key of a method's route. */
  function MethodKey(methodName: string): string
  {
    RouteKey(MethodRoute(methodName).0, MethodRoute(methodName).1)
  }

  /** The route keys registering `ms` adds: one per method whose name starts with "Handle". */
  function HandleKeys(ms: seq<MethodRef>): set<string>
  {
    if ms == [] then {}
    else
      var m := ms[|ms| - 1];
      HandleKeys(ms[..|ms| - 1]) + (if HasPrefix(m.name, "Handle") then {MethodKey(m.name)} else {})
  }

  /** No method's name starts with "Handle". */
  predicate NoHandle(ms: seq<MethodRef>)
  {
    forall i :: 0 <= i < |ms| ==> !HasPrefix(ms[i].name, "Handle")
  }

  /** Every Handle method's key is among them. */
  lemma {:induction false} HandleKeysHas(ms: seq<MethodRef>, i: int)
    requires 0 <= i < |ms| && HasPrefix(ms[i].name, "Handle")
    ensures MethodKey(ms[i].name) in HandleKeys(ms)
    decreases |ms|
  {
    if i < |ms| - 1 {
      HandleKeysHas(ms[..|ms| - 1], i);
    }
  }

  lemma HandleKeysAll(ms: seq<MethodRef>)
    ensures forall i :: 0 <= i < |ms| && HasPrefix(ms[i].name, "Handle") ==> MethodKey(ms[i].name) in HandleKeys(ms)
  {
    forall i | 0 <= i < |ms| && HasPrefix(ms[i].name, "Handle")
      ensures MethodKey(ms[i].name) in HandleKeys(ms)
    {
      HandleKeysHas(ms, i);
    }
  }

  /** The method whose route each added key holds: the last Handle method with that key wins. */
  function HandleNames(ms: seq<MethodRef>): (r: map<string, string>)
    ensures r.Keys == HandleKeys(ms)
  {
    if ms == [] then map[]
    else
      var m := ms[|ms| - 1];
      if HasPrefix(m.name, "Handle") then HandleNames(ms[..|ms| - 1])[MethodKey(m.name) := m.name]
      else HandleNames(ms[..|ms| - 1])
  }

  /** Each key of HandleNames holds a Handle method with that key. */
  lemma {:induction false} HandleNamesKeys(ms: seq<MethodRef>)
    ensures forall k :: k in HandleNames(ms) ==> MethodKey(HandleNames(ms)[k]) == k && HasPrefix(HandleNames(ms)[k], "Handle")
    decreases |ms|
  {
    if ms != [] {
      HandleNamesKeys(ms[..|ms| - 1]);
    }
  }

  /** A Handle method that no later Handle method shares a key with is the one its key holds. */
  lemma {:induction false} HandleNamesLast(ms: seq<MethodRef>, i: int)
    requires 0 <= i < |ms| && HasPrefix(ms[i].name, "Handle")
    requires forall j :: i < j < |ms| && HasPrefix(ms[j].name, "Handle") ==> MethodKey(ms[j].name) != MethodKey(ms[i].name)
    ensures MethodKey(ms[i].name) in HandleNames(ms) && HandleNames(ms)[MethodKey(ms[i].name)] == ms[i].name
    decreases |ms|
  {
    if i < |ms| - 1 {
      HandleNamesLast(ms[..|ms| - 1], i);
    }
  }

  /** The route-log entry registerRoute writes for a method of the controller named `ctrl`. */
  function HandleEntry(ctrl: string, methodName: string): LogEntry
  {
    LogEntry(MethodRoute(methodName).0, MethodRoute(methodName).1, ctrl + "." + methodName, "")
  }

  /** The route-log entries registering `ms` appends: one per Handle method, in order. */
  function HandleEntries(ctrl: string, ms: seq<MethodRef>): seq<LogEntry>
  {
    if ms == [] then []
    else
      var m := ms[|ms| - 1];
      HandleEntries(ctrl, ms[..|ms| - 1]) + (if HasPrefix(m.name, "Handle") then [HandleEntry(ctrl, m.name)] else [])
  }

  /** The router bindings registering `ms` adds: one per Handle method whose verb the router knows, in order. */
  function HandleBindings(owner: Controller, ms: seq<MethodRef>): seq<Binding>
  {
    if ms == [] then []
    else
      var m := ms[|ms| - 1];
      var (verb, path) := MethodRoute(m.name);
      HandleBindings(owner, ms[..|ms| - 1])
        + (if HasPrefix(m.name, "Handle") && verb in RouterVerbs then [Binding(verb, path, ThroughMiddleware(owner, m.body))] else [])
  }

  /** A list without Handle… methods logs and binds nothing. */
  lemma {:induction false} HandleNoneEmpty(owner: Controller, ctrl: string, ms: seq<MethodRef>)
    requires NoHandle(ms)
    ensures HandleEntries(ctrl, ms) == [] && HandleBindings(owner, ms) == []
    decreases |ms|
  {
    if ms != [] {
      HandleNoneEmpty(owner, ctrl, ms[..|ms| - 1]);
    }
  }

  /** Every binding has a router verb and matches a logged entry's verb and path. */
  lemma {:induction false} HandleBindingsLogged(owner: Controller, ctrl: string, ms: seq<MethodRef>)
    ensures forall b :: b in HandleBindings(owner, ms) ==>
      b.verb in RouterVerbs && exists e :: e in HandleEntries(ctrl, ms) && e.verb == b.verb && e.path == b.path
    decreases |ms|
  {
    if ms != [] {
      var init, m := ms[..|ms| - 1], ms[|ms| - 1];
      HandleBindingsLogged(owner, ctrl, init);
      if HasPrefix(m.name, "Handle") && MethodRoute(m.name).0 in RouterVerbs {
        var e := HandleEntry(ctrl, m.name);
        assert e in HandleEntries(ctrl, ms);
      }
    }
  }

  /** One more method extends the added keys and the key-to-method map by that method's own contribution. */
  lemma HandleKeysSnoc(ms: seq<MethodRef>, i: int)
    requires 0 <= i < |ms|
    ensures var m, pre, post := ms[i], ms[..i], ms[..i + 1];
      && HandleKeys(post) == HandleKeys(pre) + (if HasPrefix(m.name, "Handle") then {MethodKey(m.name)} else {})
      && HandleNames(post) == (if HasPrefix(m.name, "Handle") then HandleNames(pre)[MethodKey(m.name) := m.name] else HandleNames(pre))
  {
    assert ms[..i + 1][..i] == ms[..i];
  }

  /** One more method extends the log entries and the bindings by that method's own ones. */
  lemma HandleLogSnoc(owner: Controller, ctrl: string, ms: seq<MethodRef>, i: int)
    requires 0 <= i < |ms|
    ensures HandleEntries(ctrl, ms[..i + 1]) == HandleEntries(ctrl, ms[..i]) + HandleEntries(ctrl, [ms[i]])
    ensures HandleBindings(owner, ms[..i + 1]) == HandleBindings(owner, ms[..i]) + HandleBindings(owner, [ms[i]])
  {
    assert ms[..i + 1][..i] == ms[..i];
    assert [ms[i]][..0] == [];
  }

  /** The route the registration loop leaves under a key added for method `methodName`. */
  predicate Registered(r: Route, methodName: string)
    reads r
  {
    r.name == methodName && (r.verb, r.path) == MethodRoute(methodName) && r.description == ""
    && r.handler == None && r.requestBody == None && r.response == None
  }

  /** Every key of `names` holds the route registered for the method it names. */
  ghost predicate AllRegistered(rs: map<string, Route>, names: map<string, string>)
    reads rs.Values
  {
    forall k :: k in names ==> k in rs && Registered(rs[k], names[k])
  }

  /** Storing the route of one more method keeps every earlier key registered. */
  lemma AllRegisteredStore(before: map<string, Route>, after: map<string, Route>, names: map<string, string>,
                           k0: string, name0: string)
    requires AllRegistered(before, names)
    requires k0 in after && Registered(after[k0], name0) && after == before[k0 := after[k0]]
    ensures AllRegistered(after, names[k0 := name0])
  {
    forall k | k in names[k0 := name0]
      ensures k in after && Registered(after[k], names[k0 := name0][k])
    {
      if k != k0 {
        assert after[k] == before[k];
      }
    }
  }

  /**
   * Registering one more method: when it is a Handle method (`added`) its
   * key `k0` and registered route join the map, and every key added before
   * and every earlier route stay as they were.
   */
  lemma RoutesStep(routes0: map<string, Route>, before: map<string, Route>, after: map<string, Route>,
                   keysPre: set<string>, keysDone: set<string>, namesPre: map<string, string>, namesDone: map<string, string>,
                   added: bool, k0: string, name0: string)
    requires before.Keys == routes0.Keys + keysPre
    requires forall k :: k in routes0 && k !in keysPre ==> before[k] == routes0[k]
    requires AllRegistered(before, namesPre)
    requires added ==>
      keysDone == keysPre + {k0} && namesDone == namesPre[k0 := name0]
      && k0 in after && Registered(after[k0], name0) && after == before[k0 := after[k0]]
    requires !added ==> keysDone == keysPre && namesDone == namesPre && after == before
    ensures after.Keys == routes0.Keys + keysDone
    ensures forall k :: k in routes0 && k !in keysDone ==> after[k] == routes0[k]
    ensures AllRegistered(after, namesDone)
  {
    if added {
      AllRegisteredStore(before, after, namesPre, k0, name0);
    }
  }

  /**
   * The naming convention: after "Handle", the first word is the verb in
   * upper case and the remaining words, lower-cased and joined with '/',
   * are the path.
   */
  lemma MethodRouteOfWords(verb: string, rest: string)
    requires CamelWord(verb) && rest != [] && IsUpper(rest[0])
    ensures MethodRoute("Handle" + verb + rest) == (ToUpper(verb), "/" + ToLower(Join(SplitCamel(rest), "/")))
  {
    assert "Handle" + verb + rest == "Handle" + (verb + rest);
    SplitCamelCons(verb, rest);
    SplitCamelNonEmpty(rest);
    assert ([verb] + SplitCamel(rest))[1..] == SplitCamel(rest);
  }

  /** With no word after the verb the path is empty. */
  lemma MethodRouteVerbOnly(verb: string)
    requires CamelWord(verb)
    ensures MethodRoute("Handle" + verb) == (ToUpper(verb), "")
  {
    SplitCamelWord(verb);
  }

  /** HandleGetUserById is bound as GET /user/by/id. */
  lemma MethodRouteUserById()
    ensures MethodRoute("Handle" + "Get" + "User" + "By" + "Id") == ("GET", "/user/by/id")
  {
    assert "Handle" + "Get" + "User" + "By" + "Id" == "Handle" + "Get" + ("User" + "By" + "Id");
    MethodRouteOfWords("Get", "User" + "By" + "Id");
    SplitUserById();
    LowerUserById();
    UpperGet();
  }

  lemma SplitUserById()
    ensures SplitCamel("User" + "By" + "Id") == ["User", "By", "Id"]
  {
    SplitCamelWord("Id");
    SplitCamelCons("By", "Id");
    assert "User" + "By" + "Id" == "User" + ("By" + "Id");
    SplitCamelCons("User", "By" + "Id");
  }

  lemma LowerUserById()
    ensures "/" + ToLower(Join(["User", "By", "Id"], "/")) == "/user/by/id"
  {
    assert Join(["User", "By", "Id"], "/") == "User" + "/" + ("By" + "/" + "Id");
    ToLowerAppend("By" + "/", "Id");
    ToLowerAppend("By", "/");
    ToLowerAppend("User" + "/", "By" + "/" + "Id");
    ToLowerAppend("User", "/");
    assert ToLower("User") == "user" && ToLower("By") == "by" && ToLower("Id") == "id" && ToLower("/") == "/";
  }

  lemma UpperGet()
    ensures ToUpper("Get") == "GET"
  {
  }

  /** A bare "Handle" has no words: the verb and the path are both empty. */
  lemma MethodRouteBareHandle()
    ensures MethodRoute("Handle") == ("", "")
  {
    assert TrimPrefix("Handle", "Handle") == "";
  }

  // ----------------------------------------------------------- route tables

  /** The seven verbs the router binds. */
  const RouterVerbs: seq<string> := ["GET", "POST", "PUT", "DELETE", "PATCH", "OPTIONS", "HEAD"]

  /** One call of app.routes.Add(method, path, handlerName, description). */
  datatype LogEntry = LogEntry(verb: string, path: string, handlerName: string, description: string)

  /** The application's route manager, seen only through its Add calls. */
  class RouteLog {
    var entries: seq<LogEntry>

    constructor ()
      ensures entries == []
    {
      entries := [];
    }

    method Add(verb: string, path: string, handlerName: string, description: string)
      modifies this
      ensures entries == old(entries) + [LogEntry(verb, path, handlerName, description)]
    {
      entries := entries + [LogEntry(verb, path, handlerName, description)];
    }
  }

  /** What a router binding runs. */
  datatype Target =
    | Direct(body: HandlerFunc)                          // the handler itself
    | ThroughMiddleware(owner: Controller, body: HandlerFunc)  // the owner's middleware, read at request time, around the handler

  /** Running a bound handler on a request. */
  function Invoke(t: Target, s: State): Outcome
    reads if t.ThroughMiddleware? then {t.owner} else {}
  {
    match t
    case Direct(h) => h(s)
    case ThroughMiddleware(c, h) => Compose(c.middleware, h)(s)
  }

  datatype Binding = Binding(verb: string, path: string, target: Target)

  /** A fiber router, seen only through the routes bound on it. */
  class Router {
    var bindings: seq<Binding>

    constructor ()
      ensures bindings == []
    {
      bindings := [];
    }

    /** The verb switch: one of the seven verbs binds the handler, anything else binds nothing. */
    method Bind(verb: string, path: string, target: Target)
      modifies this
      ensures verb in RouterVerbs ==> bindings == old(bindings) + [Binding(verb, path, target)]
      ensures verb !in RouterVerbs ==> bindings == old(bindings)
    {
      if verb in RouterVerbs {
        bindings := bindings + [Binding(verb, path, target)];
      }
    }
  }

  /** Route: the fluent setters change their own field and return the same route. */
  class Route {
    var name: string
    var verb: string
    var path: string
    var description: string
    var requestBody: Option<string>
    var response: Option<string>
    var handler: Option<HandlerFunc>

    constructor (name: string, verb: string, path: string, description: string, handler: Option<HandlerFunc>)
      ensures this.name == name && this.verb == verb && this.path == path
      ensures this.description == description && this.handler == handler
      ensures requestBody == None && response == None
    {
      this.name := name;
      this.verb := verb;
      this.path := path;
      this.description := description;
      this.handler := handler;
      requestBody := None;
      response := None;
    }

    method SetName(n: string) returns (r: Route)
      modifies this
      ensures r == this && name == n
      ensures verb == old(verb) && path == old(path) && description == old(description)
      ensures requestBody == old(requestBody) && response == old(response) && handler == old(handler)
    {
      name := n;
      r := this;
    }

    method SetRequestBody(model: string) returns (r: Route)
      modifies this
      ensures r == this && requestBody == Some(model)
      ensures name == old(name) && verb == old(verb) && path == old(path) && description == old(description)
      ensures response == old(response) && handler == old(handler)
    {
      requestBody := Some(model);
      r := this;
    }

    method SetResponse(model: string) returns (r: Route)
      modifies this
      ensures r == this && response == Some(model)
      ensures name == old(name) && verb == old(verb) && path == old(path) && description == old(description)
      ensures requestBody == old(requestBody) && handler == old(handler)
    {
      response := Some(model);
      r := this;
    }
  }

  function RouteKey(verb: string, path: string): string
  {
    verb + ":" + path
  }

  /** A controller method found by reflection: its name and its body. */
  datatype MethodRef = MethodRef(name: string, body: HandlerFunc)

  /** The exported methods of *Controller, in the lexical order reflect lists them. */
  const ControllerMethodNames: seq<string> :=
    ["App", "GetRouteByName", "GetRoutes", "Group", "Name", "RegisterRoute", "RegisterRoutes", "SetApplication", "SetName", "Use"]

  /**
   * What reflect.TypeOf(c) lists when c is a *Controller: Controller's own
   * methods.  Their bodies play no part, since no handler is made of them.
   */
  function ReflectedMethods(): (ms: seq<MethodRef>)
    ensures |ms| == |ControllerMethodNames|
    ensures forall i :: 0 <= i < |ms| ==> ms[i].name == ControllerMethodNames[i]
  {
    seq(|ControllerMethodNames|, i requires 0 <= i < |ControllerMethodNames| =>
      MethodRef(ControllerMethodNames[i], (st: State) => Outcome(st, None)))
  }

  /** No method of *Controller is named Handle…, so reflecting on it finds nothing to register. */
  lemma ReflectedNoHandler()
    ensures NoHandle(ReflectedMethods())
    ensures HandleKeys(ReflectedMethods()) == {}
  {
    var ms := ReflectedMethods();
    forall i | 0 <= i < |ms|
      ensures !HasPrefix(ms[i].name, "Handle")
    {
      var n := ControllerMethodNames[i];
      assert n != [] && n[0] != 'H';
    }
    HandleKeysNone(ms);
  }

  /** A list without Handle… methods adds no route key. */
  lemma {:induction false} HandleKeysNone(ms: seq<MethodRef>)
    requires NoHandle(ms)
    ensures HandleKeys(ms) == {}
    decreases |ms|
  {
    if ms != [] {
      HandleKeysNone(ms[..|ms| - 1]);
    }
  }

  class Controller {
    /** c.app.routes, or null when the controller has no application. */
    var log: RouteLog?
    var middleware: seq<MiddlewareFunc>
    var name: string
    var routes: map<string, Route>

    constructor (log: RouteLog?)
      ensures this.log == log && middleware == [] && name == "" && routes == map[]
    {
      this.log := log;
      middleware := [];
      name := "";
      routes := map[];
    }

    /** Name: the set name, else the reflected name of the embedded Controller type. */
    function Name(): (r: string)
      reads this
      ensures name != "" ==> r == name
      ensures name == "" ==> r == "Controller"
    {
      if name != "" then name else "Controller"
    }

    /** Use appends the middleware in order and keeps the existing ones. */
    method Use(mws: seq<MiddlewareFunc>)
      modifies this
      ensures middleware == old(middleware) + mws
      ensures routes == old(routes) && name == old(name) && log == old(log)
    {
      middleware := middleware + mws;
    }

    method SetName(n: string)
      modifies this
      ensures name == n
      ensures routes == old(routes) && middleware == old(middleware) && log == old(log)
    {
      name := n;
    }

    /**
     * RegisterRoute: the verb is upper-cased and the route stored under
     * "METHOD:path", replacing any route under that key; the application's
     * route log, when there is one, records one Add.
     */
    method RegisterRoute(verb: string, path: string, description: string, handler: HandlerFunc) returns (r: Route)
      modifies this, log
      ensures fresh(r)
      ensures r.verb == ToUpper(verb) && r.path == path && r.description == description
      ensures r.handler == Some(handler) && r.name == ""
      ensures routes == old(routes)[RouteKey(ToUpper(verb), path) := r]
      ensures RouteKey(ToUpper(verb), path) in old(routes) ==> |routes| == |old(routes)|
      ensures log == old(log) && middleware == old(middleware) && name == old(name)
      ensures log != null ==> log.entries == old(log.entries) + [LogEntry(ToUpper(verb), path, Name() + ".CustomHandler", description)]
    {
      r := new Route("", ToUpper(verb), path, description, Some(handler));
      routes := routes[RouteKey(r.verb, r.path) := r];
      if log != null {
        log.Add(r.verb, r.path, Name() + ".CustomHandler", description);
      }
    }

    /**
     * registerRoute: the route derived by MethodRoute is stored (even when
     * its verb is not one the router knows), logged, and bound to the
     * router only for the seven verbs; the bound handler runs the
     * controller's middleware around the method body.
     */
    method RegisterMethodRoute(router: Router, m: MethodRef)
      modifies this, router, log
      ensures log == old(log) && middleware == old(middleware) && name == old(name)
      ensures routes.Keys == old(routes).Keys + {MethodKey(m.name)}
      ensures var (verb, path) := MethodRoute(m.name);
        && RouteKey(verb, path) in routes
        && fresh(routes[RouteKey(verb, path)])
        && routes == old(routes)[RouteKey(verb, path) := routes[RouteKey(verb, path)]]
        && routes[RouteKey(verb, path)].name == m.name
        && routes[RouteKey(verb, path)].verb == verb
        && routes[RouteKey(verb, path)].path == path
        && routes[RouteKey(verb, path)].description == ""
        && routes[RouteKey(verb, path)].handler == None
        && routes[RouteKey(verb, path)].requestBody == None && routes[RouteKey(verb, path)].response == None
        && (log != null ==> log.entries == old(log.entries) + [LogEntry(verb, path, Name() + "." + m.name, "")])
        && (verb in RouterVerbs ==> router.bindings == old(router.bindings) + [Binding(verb, path, ThroughMiddleware(this, m.body))])
        && (verb !in RouterVerbs ==> router.bindings == old(router.bindings))
    {
      var parts := SplitCamelCase(TrimPrefix(m.name, "Handle"));
      var verb: string := "";
      var path: string := "";
      if |parts| > 0 {
        verb := ToUpper(parts[0]);
        if |parts| > 1 {
          path := "/" + ToLower(Join(parts[1..], "/"));
        }
      }
      var route := new Route(m.name, verb, path, "", None);
      routes := routes[RouteKey(verb, path) := route];
      if log != null {
        log.Add(verb, path, Name() + "." + m.name, "");
      }
      router.Bind(verb, path, ThroughMiddleware(this, m.body));
    }

    /**
     * RegisterRoutes as written: it reflects on the receiver, a *Controller,
     * whose method set is Controller's own, so no method is registered and
     * nothing changes, whatever controller embeds it.
     */
    method RegisterRoutes(router: Router)
      modifies this, router, log
      ensures routes == old(routes) && log == old(log) && middleware == old(middleware)
      ensures router.bindings == old(router.bindings)
      ensures log != null ==> log.entries == old(log.entries)
    {
      ReflectedNoHandler();
      RegisterMethods(router, ReflectedMethods());
    }

    /**
     * The registration loop over a given method list: registerRoute for
     * every method whose name starts with "Handle", in order.  This is what
     * RegisterRoutes does when the reflected type has Handle… methods: each
     * added key holds the route of the last Handle method with that key,
     * the route log gains one entry per Handle method and the router one
     * binding per Handle method whose verb it knows.
     */
    method RegisterMethods(router: Router, methods: seq<MethodRef>)
      modifies this, router, log
      ensures routes.Keys == old(routes).Keys + HandleKeys(methods)
      ensures forall k :: k in old(routes) && k !in HandleKeys(methods) ==> routes[k] == old(routes)[k]
      ensures forall k :: k in HandleKeys(methods) ==> Registered(routes[k], HandleNames(methods)[k])
      ensures forall i :: 0 <= i < |methods| && HasPrefix(methods[i].name, "Handle") ==> MethodKey(methods[i].name) in routes
      ensures log == old(log) && middleware == old(middleware) && name == old(name)
      ensures log != null ==> log.entries == old(log.entries) + HandleEntries(Name(), methods)
      ensures router.bindings == old(router.bindings) + HandleBindings(this, methods)
      ensures NoHandle(methods) ==>
        routes == old(routes) && router.bindings == old(router.bindings) && (log != null ==> log.entries == old(log.entries))
    {
      var i := 0;
      while i < |methods|
        invariant 0 <= i <= |methods|
        invariant log == old(log) && middleware == old(middleware) && name == old(name)
        invariant Registering(old(routes), old(router.bindings), if log != null then old(log.entries) else [], router, methods[..i])
      {
        RegisterNext(router, methods, i, old(routes), old(router.bindings), if log != null then old(log.entries) else []);
        i := i + 1;
      }
      assert methods[..i] == methods;
      HandleKeysAll(methods);
      if NoHandle(methods) {
        HandleKeysNone(methods);
        HandleNoneEmpty(this, Name(), methods);
        assert routes == old(routes);
      }
    }

    /**
     * The state after registering the methods `done`, starting from the
     * routes `routes0`, the bindings `bindings0` and the log entries
     * `entries0`.
     */
    ghost predicate Registering(routes0: map<string, Route>, bindings0: seq<Binding>, entries0: seq<LogEntry>,
                                router: Router, done: seq<MethodRef>)
      reads this, log, router, routes.Values
    {
      && routes.Keys == routes0.Keys + HandleKeys(done)
      && (forall k :: k in routes0 && k !in HandleKeys(done) ==> routes[k] == routes0[k])
      && AllRegistered(routes, HandleNames(done))
      && (log != null ==> log.entries == entries0 + HandleEntries(Name(), done))
      && router.bindings == bindings0 + HandleBindings(this, done)
    }

    /** One turn of the registration loop: registering `methods[i]` extends the state by that method. */
    method RegisterNext(router: Router, methods: seq<MethodRef>, i: int,
                        ghost routes0: map<string, Route>, ghost bindings0: seq<Binding>, ghost entries0: seq<LogEntry>)
      requires 0 <= i < |methods|
      requires Registering(routes0, bindings0, entries0, router, methods[..i])
      modifies this, router, log
      ensures log == old(log) && middleware == old(middleware) && name == old(name)
      ensures Registering(routes0, bindings0, entries0, router, methods[..i + 1])
    {
      var m, pre, done := methods[i], methods[..i], methods[..i + 1];
      ghost var before := routes;
      assert done == pre + [m];
      assert AllRegistered(before, HandleNames(pre));
      assert router.bindings == bindings0 + HandleBindings(this, pre);
      assert log != null ==> log.entries == entries0 + HandleEntries(Name(), pre);
      HandleLogSnoc(this, Name(), methods, i);
      AppendAssoc(bindings0, HandleBindings(this, pre), HandleBindings(this, [m]));
      AppendAssoc(entries0, HandleEntries(Name(), pre), HandleEntries(Name(), [m]));
      HandleKeysSnoc(methods, i);
      RegisterIfHandle(router, m);
      RoutesStep(routes0, before, routes, HandleKeys(pre), HandleKeys(done), HandleNames(pre), HandleNames(done),
                 HasPrefix(m.name, "Handle"), MethodKey(m.name), m.name);
    }

    /** One step of RegisterMethods: a Handle method's route, entry and binding, and nothing for any other method. */
    method RegisterIfHandle(router: Router, m: MethodRef)
      modifies this, router, log
      ensures log == old(log) && middleware == old(middleware) && name == old(name)
      ensures HasPrefix(m.name, "Handle") ==>
        var k := MethodKey(m.name);
        k in routes && fresh(routes[k]) && Registered(routes[k], m.name) && routes == old(routes)[k := routes[k]]
      ensures !HasPrefix(m.name, "Handle") ==> routes == old(routes)
      ensures log != null ==> log.entries == old(log.entries) + HandleEntries(Name(), [m])
      ensures router.bindings == old(router.bindings) + HandleBindings(this, [m])
    {
      assert [m][..0] == [];
      if HasPrefix(m.name, "Handle") {
        RegisterMethodRoute(router, m);
      }
    }

    /** GetRouteByName: some route with that name, or null exactly when no route has it. */
    method GetRouteByName(n: string) returns (r: Route?)
      ensures r != null ==> r in routes.Values && r.name == n
      ensures r == null <==> forall k :: k in routes ==> routes[k].name != n
    {
      var todo := routes.Keys;
      while todo != {}
        invariant todo <= routes.Keys
        invariant forall k :: k in routes.Keys - todo ==> routes[k].name != n
        decreases todo
      {
        var k :| k in todo;
        if routes[k].name == n {
          return routes[k];
        }
        todo := todo - {k};
      }
      return null;
    }

    /** Group: a new group under the prefix that starts with this controller's middleware. */
    method Group(prefix: string) returns (g: ControllerGroup)
      ensures fresh(g)
      ensures g.prefix == prefix && g.middleware == middleware && g.members == [] && g.name == ""
    {
      g := new ControllerGroup(prefix, middleware);
    }
  }

  /** A controller added to a group: a *Controller, or any other controller value. */
  datatype Member = Core(c: Controller) | Custom(typeName: string)

  class ControllerGroup {
    var prefix: string
    var middleware: seq<MiddlewareFunc>
    var members: seq<Member>
    var name: string

    constructor (prefix: string, mws: seq<MiddlewareFunc>)
      ensures this.prefix == prefix && middleware == mws && members == [] && name == ""
    {
      this.prefix := prefix;
      middleware := mws;
      members := [];
      name := "";
    }

    /** Use appends in order, keeps the existing entries and returns the same group. */
    method Use(mws: seq<MiddlewareFunc>) returns (g: ControllerGroup)
      modifies this
      ensures g == this
      ensures middleware == old(middleware) + mws
      ensures members == old(members) && prefix == old(prefix) && name == old(name)
    {
      middleware := middleware + mws;
      g := this;
    }

    /**
     * Add appends the controller; a *Controller also gets the group's
     * middleware appended after its own, so the group's run innermost.
     */
    method Add(m: Member) returns (g: ControllerGroup)
      modifies this, if m.Core? then {m.c} else {}
      ensures g == this
      ensures members == old(members) + [m]
      ensures middleware == old(middleware) && prefix == old(prefix) && name == old(name)
      ensures m.Core? ==> m.c.middleware == old(m.c.middleware) + old(middleware)
      ensures m.Core? ==> m.c.routes == old(m.c.routes)
    {
      members := members + [m];
      if m.Core? {
        m.c.middleware := m.c.middleware + middleware;
      }
      g := this;
    }

    method SetName(n: string) returns (g: ControllerGroup)
      modifies this
      ensures g == this && name == n
      ensures middleware == old(middleware) && members == old(members) && prefix == old(prefix)
    {
      name := n;
      g := this;
    }
  }

  /** After Add, the controller's own middleware wraps the group's, which wraps the handler. */
  lemma GroupMiddlewareInnermost(own: seq<MiddlewareFunc>, group: seq<MiddlewareFunc>, body: HandlerFunc)
    ensures Compose(own + group, body) == Compose(own, Compose(group, body))
  {
    ComposeAppend(own, group, body);
  }
}

/**
 * The earlier revision of the scoring API (W3_OOP/api.py). It declares the
 * same fields and validators as the later one, but:
 *   - `Field.__init__` never sets `label`, so a field that no request has
 *     passed yet has no label, and reading it raises AttributeError;
 *   - `RequestProcessor.__init__` walks the passed arguments in order and
 *     lists every non-empty one, declared or not;
 *   - `check_auth` replaces the digest by the token before comparing them;
 *   - `method_handler` returns None for a method it does not know.
 */
module ApiLegacy {
  import opened Wrappers
  import opened Text
  import opened ApiFields
  import opened ApiRequest

  /** The label of field `f` after the arguments `kwargs` were bound in order: the last one passed for it. */
  function Assigned(prior: Option<Value>, f: Field, kwargs: Object): Option<Value>
  {
    if kwargs == [] then prior
    else
      var n := |kwargs| - 1;
      if kwargs[n].0 == f.name then Some(kwargs[n].1) else Assigned(prior, f, kwargs[..n])
  }

  /** A field keeps its label, set or not, unless an argument names it. */
  lemma {:induction false} AssignedKeeps(prior: Option<Value>, f: Field, kwargs: Object)
    requires forall i :: 0 <= i < |kwargs| ==> kwargs[i].0 != f.name
    ensures Assigned(prior, f, kwargs) == prior
  {
    if kwargs != [] {
      AssignedKeeps(prior, f, kwargs[..|kwargs| - 1]);
    }
  }

  /** A field named by an argument has that argument's value as its label, when the name is passed once. */
  lemma {:induction false} AssignedSets(prior: Option<Value>, f: Field, kwargs: Object, k: nat)
    requires k < |kwargs| && kwargs[k].0 == f.name
    requires forall i :: 0 <= i < |kwargs| && i != k ==> kwargs[i].0 != f.name
    ensures Assigned(prior, f, kwargs) == Some(kwargs[k].1)
  {
    var n := |kwargs| - 1;
    if k < n {
      AssignedSets(prior, f, kwargs[..n], k);
    }
  }

  /** The labels of all fields after binding `kwargs`. */
  function Assign(fields: seq<Field>, labels: seq<Option<Value>>, kwargs: Object): (r: seq<Option<Value>>)
    requires |labels| == |fields|
    ensures |r| == |fields|
  {
    seq(|fields|, i requires 0 <= i < |fields| => Assigned(labels[i], fields[i], kwargs))
  }

  /** `non_empty_fields` of this revision: every passed key with a non-empty value, in argument order. */
  function NonEmptyPassed(kwargs: Object): seq<String>
  {
    if kwargs == [] then []
    else
      var n := |kwargs| - 1;
      NonEmptyPassed(kwargs[..n]) + (if !IsEmpty(kwargs[n].1) then [kwargs[n].0] else [])
  }

  /** A name is listed exactly when some argument passes it with a non-empty value, whether a field declares it or not. */
  lemma {:induction false} NonEmptyPassedSpec(kwargs: Object, x: String)
    ensures x in NonEmptyPassed(kwargs) <==> exists i :: 0 <= i < |kwargs| && kwargs[i].0 == x && !IsEmpty(kwargs[i].1)
  {
    if kwargs != [] {
      var n := |kwargs| - 1;
      NonEmptyPassedSpec(kwargs[..n], x);
      if exists i :: 0 <= i < |kwargs| && kwargs[i].0 == x && !IsEmpty(kwargs[i].1) {
        var i :| 0 <= i < |kwargs| && kwargs[i].0 == x && !IsEmpty(kwargs[i].1);
        if i < n {
          assert kwargs[..n][i] == kwargs[i];
        }
      }
      if exists i :: 0 <= i < n && kwargs[..n][i].0 == x && !IsEmpty(kwargs[..n][i].1) {
        var i :| 0 <= i < n && kwargs[..n][i].0 == x && !IsEmpty(kwargs[..n][i].1);
        assert kwargs[i] == kwargs[..n][i];
      }
    }
  }

  /** Every label set. */
  predicate AllSet(labels: seq<Option<Value>>)
  {
    forall i :: 0 <= i < |labels| ==> labels[i].Some?
  }

  /** The values of the labels, read once every one is set. */
  function Values(labels: seq<Option<Value>>): (r: seq<Value>)
    ensures |r| == |labels|
  {
    seq(|labels|, i requires 0 <= i < |labels| => labels[i].GetOr(VNull))
  }

  /**
   * `RequestProcessor.validate`: the first unset label raises
   * AttributeError in the emptiness test; with every label set, the error
   * entries of the later revision.
   */
  function Validation(fields: seq<Field>, labels: seq<Option<Value>>, cal: Calendar): Result<seq<Error>>
    requires |labels| == |fields|
  {
    if AllSet(labels) then Ok(FieldErrors(fields, Values(labels), cal)) else Raises(AttributeError)
  }

  /** A request class of this revision: its declared fields and their shared labels, possibly unset. */
  class RequestClass {
    const fields: seq<Field>
    var labels: seq<Option<Value>>

    predicate Valid()
      reads this
    {
      |labels| == |fields|
    }

    /** Class creation: `Field.__init__` sets `required` and `nullable` but no label. */
    constructor (fields: seq<Field>)
      ensures this.fields == fields
      ensures labels == seq(|fields|, _ => None)
      ensures Valid()
    {
      this.fields := fields;
      labels := seq(|fields|, _ => None);
    }

    /**
     * `__init__(**passed_dict)`: for each passed argument in order, every
     * field of that name takes the value as its label; the result is
     * `non_empty_fields`.
     */
    method Bind(kwargs: Object) returns (nonEmpty: seq<String>)
      requires Valid()
      modifies this
      ensures Valid()
      ensures labels == Assign(fields, old(labels), kwargs)
      ensures nonEmpty == NonEmptyPassed(kwargs)
    {
      nonEmpty := [];
      var i := 0;
      while i < |kwargs|
        invariant 0 <= i <= |kwargs| && |labels| == |fields|
        invariant forall j :: 0 <= j < |fields| ==> labels[j] == Assigned(old(labels)[j], fields[j], kwargs[..i])
        invariant nonEmpty == NonEmptyPassed(kwargs[..i])
      {
        var (name, value) := kwargs[i];
        assert kwargs[..i + 1][..i] == kwargs[..i];
        var j := 0;
        while j < |fields|
          invariant 0 <= j <= |fields| && |labels| == |fields|
          invariant forall k :: 0 <= k < j ==> labels[k] == Assigned(old(labels)[k], fields[k], kwargs[..i + 1])
          invariant forall k :: j <= k < |fields| ==> labels[k] == Assigned(old(labels)[k], fields[k], kwargs[..i])
        {
          if fields[j].name == name {
            labels := labels[j := Some(value)];
          }
          j := j + 1;
        }
        if !IsEmpty(value) {
          nonEmpty := nonEmpty + [name];
        }
        i := i + 1;
      }
      assert kwargs[..i] == kwargs;
    }

    /** `validate`: raises on the first unset label, otherwise the error entries in declaration order. */
    method Validate(cal: Calendar) returns (r: Result<seq<Error>>)
      requires Valid()
      ensures r == Validation(fields, labels, cal)
    {
      var fs, ls := fields, labels;
      ghost var values := Values(ls);
      var errors := [];
      var i := 0;
      while i < |fs|
        invariant 0 <= i <= |fs|
        invariant forall j :: 0 <= j < i ==> ls[j].Some?
        invariant errors == FieldErrors(fs[..i], values[..i], cal)
      {
        if ls[i].None? {
          assert !AllSet(ls);
          return Raises(AttributeError);
        }
        var f := fs[i];
        var v := ls[i].value;
        ghost var prev := errors;
        if IsEmpty(v) && !f.nullable {
          errors := errors + [(f.name, EmptyMsg)];
        }
        ghost var mid := errors;
        var msg := Check(f.kind, v, cal);
        if msg.Some? {
          errors := errors + [(f.name, msg.value)];
        }
        assert errors == prev + LabelErrors(f, v, cal) by {
          ghost var a := mid[|prev|..];
          ghost var b := errors[|mid|..];
          assert mid == prev + a && errors == mid + b;
          assert LabelErrors(f, v, cal) == a + b;
          Assoc(prev, a, b);
        }
        assert values[i] == v;
        FieldErrorsStep(fs, values, cal, i);
        i := i + 1;
      }
      assert errors == FieldErrors(fs, values, cal) by {
        assert fs[..i] == fs && values[..i] == values;
      }
      assert AllSet(ls);
      r := Ok(errors);
    }
  }

  /** The labels of the three request classes. */
  datatype Labels = Labels(main: seq<Option<Value>>, score: seq<Option<Value>>, interests: seq<Option<Value>>)

  predicate WellFormed(st: Labels)
  {
    |st.main| == |MethodFields| && |st.score| == |ScoreFields| && |st.interests| == |InterestsFields|
  }

  /** The state before the first request: no label set. */
  function Fresh(): (st: Labels)
    ensures WellFormed(st)
  {
    Labels(seq(|MethodFields|, _ => None), seq(|ScoreFields|, _ => None), seq(|InterestsFields|, _ => None))
  }

  /** The date checks and the scoring functions, None when they raise. */
  datatype Env = Env(cal: Calendar, getScore: Object -> Option<Value>, getInterests: Value -> Option<Value>)

  /** The reply of the handler; the interests are the response dict of `get_interests`. */
  datatype Reply = Errors(errors: seq<Error>) | Message(msg: String) | Score(score: Value) | Interests(interests: Dict)

  /** What `method_handler` does: return (reply, code), return None, or raise. */
  datatype Outcome = Response(reply: Reply, code: int) | ReturnsNone | Raised(exc: Exc)

  type Ctx = map<String, Value>

  datatype Handled = Handled(outcome: Outcome, ctx: Ctx, st: Labels)

  /**
   * `check_auth(body)` as written: the digest is replaced by the token
   * itself, so the comparison always holds. Only reading a missing key
   * (KeyError) or adding a non-string account or login to the salt
   * (TypeError) stops it.
   */
  function CheckAuth(body: Object): Result<bool>
  {
    var login := Get(body, "login");
    var account := Get(body, "account");
    var token := Get(body, "token");
    if login.None? then Raises(KeyError)
    else if login.value != VStr(AdminLogin) && account.None? then Raises(KeyError)
    else if login.value != VStr(AdminLogin) && !(account.value.VStr? && login.value.VStr?) then Raises(TypeError)
    else if token.None? then Raises(KeyError)
    else
      var digest := token.value;
      Ok(digest == token.value)
  }

  /** Authentication never refuses: any token, right or wrong, passes. */
  lemma AuthNeverRefuses(body: Object)
    ensures CheckAuth(body) != Ok(false)
    ensures Get(body, "login") == Some(VStr(AdminLogin)) && Get(body, "token").Some? ==> CheckAuth(body) == Ok(true)
  {
  }

  /** `MethodRequest.is_admin`. */
  predicate IsAdmin(labels: seq<Option<Value>>)
    requires |labels| == |MethodFields|
  {
    LabelOf(MethodFields, Values(labels), "login") == Some(VStr(AdminLogin))
  }

  /** The elements `for client in client_ids` visits: list items, the characters of a string, the keys of a dict. */
  function Elements(ids: Value): seq<Value>
  {
    match ids
    case VList(items) => items
    case VStr(s) => seq(|s|, i requires 0 <= i < |s| => VStr([s[i]]))
    case VDict(entries) => seq(|entries|, i requires 0 <= i < |entries| => VStr(entries[i].0))
    case _ => []
  }

  /**
   * What a dict key stands for. Python compares keys by `==`, so `True`,
   * `1` and `1.0` are one key, and `False`, `0` and `0.0` another.
   */
  datatype Key = KNone | KNum(x: real) | KStr(s: String)

  /** `hash(v)`: the key `v` stands for, or None for a list or a dict, which are unhashable. */
  function KeyOf(v: Value): Option<Key>
  {
    match v
    case VNull => Some(KNone)
    case VBool(b) => Some(KNum(if b then 1.0 else 0.0))
    case VInt(i) => Some(KNum(i as real))
    case VReal(r) => Some(KNum(r))
    case VStr(s) => Some(KStr(s))
    case _ => None
  }

  /** A Python dict: its (key, value) entries in insertion order. */
  type Dict = seq<(Value, Value)>

  /** Every stored key is hashable, and no two stored keys are equal. */
  predicate Distinct(d: Dict)
  {
    && (forall i :: 0 <= i < |d| ==> KeyOf(d[i].0).Some?)
    && (forall i, j :: 0 <= i < j < |d| ==> KeyOf(d[i].0) != KeyOf(d[j].0))
  }

  /** The entry whose key equals `k`, or `|d|` when there is none. */
  function Slot(d: Dict, k: Key): (i: nat)
    ensures i <= |d|
    ensures i < |d| ==> KeyOf(d[i].0) == Some(k)
    ensures forall j :: 0 <= j < i ==> KeyOf(d[j].0) != Some(k)
  {
    if d == [] then 0
    else if KeyOf(d[0].0) == Some(k) then 0
    else 1 + Slot(d[1..], k)
  }

  /** `d.get(k)`. */
  function Lookup(d: Dict, k: Key): Option<Value>
  {
    var i := Slot(d, k);
    if i < |d| then Some(d[i].1) else None
  }

  /** `d[k] = v`: when a key equal to `k` is stored, its entry takes the new
    * value and keeps the stored key; otherwise `(k, v)` goes last. */
  function DictSet(d: Dict, k: Value, v: Value): Dict
    requires KeyOf(k).Some?
  {
    var i := Slot(d, KeyOf(k).value);
    if i < |d| then d[i := (d[i].0, v)] else d + [(k, v)]
  }

  /** The first entry with key `k` is the slot of `k`. */
  lemma SlotAt(d: Dict, k: Key, i: nat)
    requires i <= |d| && (i < |d| ==> KeyOf(d[i].0) == Some(k))
    requires forall j :: 0 <= j < i ==> KeyOf(d[j].0) != Some(k)
    ensures Slot(d, k) == i
  {
  }

  /** `d[k] = v` keeps the stored keys and adds `k` last when no key equals it. */
  lemma DictSetKeys(d: Dict, k: Value, v: Value)
    requires Distinct(d) && KeyOf(k).Some?
    ensures var r := DictSet(d, k, v);
            && Distinct(r)
            && (|r| == |d| || |r| == |d| + 1)
            && (forall i :: 0 <= i < |r| ==> r[i].0 == if i < |d| then d[i].0 else k)
  {
    var r := DictSet(d, k, v);
    var s := Slot(d, KeyOf(k).value);
    if s < |d| {
      assert r == d[s := (d[s].0, v)];
      assert forall i :: 0 <= i < |r| ==> r[i].0 == d[i].0;
    } else {
      assert r == d + [(k, v)];
      assert forall i :: 0 <= i < |d| ==> KeyOf(r[i].0) != KeyOf(k);
    }
  }

  /** After `d[k] = v`, `k` looks up `v` and every other key what it did. */
  lemma DictSetLookup(d: Dict, k: Value, v: Value)
    requires Distinct(d) && KeyOf(k).Some?
    ensures var r := DictSet(d, k, v);
            forall key :: Lookup(r, key) == if Some(key) == KeyOf(k) then Some(v) else Lookup(d, key)
  {
    var r := DictSet(d, k, v);
    var s := Slot(d, KeyOf(k).value);
    DictSetKeys(d, k, v);
    forall key ensures Lookup(r, key) == if Some(key) == KeyOf(k) then Some(v) else Lookup(d, key) {
      var t := Slot(d, key);
      if Some(key) == KeyOf(k) {
        SlotAt(r, key, s);
      } else if t < |d| {
        SlotAt(r, key, t);
      } else {
        SlotAt(r, key, |r|);
      }
    }
  }

  /** After `d[k] = v` the dict is still a dict, `k` looks up `v`, every other
    * key looks up what it did, and the stored keys are the old ones plus `k`
    * when it was new. */
  lemma DictSetSpec(d: Dict, k: Value, v: Value)
    requires Distinct(d) && KeyOf(k).Some?
    ensures var r := DictSet(d, k, v);
            && Distinct(r)
            && (forall key :: Lookup(r, key) == if Some(key) == KeyOf(k) then Some(v) else Lookup(d, key))
            && (|r| == |d| || |r| == |d| + 1)
            && (forall i :: 0 <= i < |r| ==> r[i].0 == if i < |d| then d[i].0 else k)
  {
    DictSetKeys(d, k, v);
    DictSetLookup(d, k, v);
  }

  /** The interests of the last listed client whose id equals key `k`, or None when no id does. */
  function LastInterest(clients: seq<Value>, k: Key, env: Env): Option<Value>
  {
    if clients == [] then None
    else
      var c := clients[|clients| - 1];
      if KeyOf(c) == Some(k) then env.getInterests(c) else LastInterest(clients[..|clients| - 1], k, env)
  }

  /**
   * `ClientsInterestsRequest.get_interests`: `response_dict[client] =
   * get_interests(...)` for each client in turn. The call runs first; a
   * call that raises gives OracleError, and then an unhashable id gives
   * TypeError.
   */
  function InterestsOf(clients: seq<Value>, env: Env): Result<Dict>
  {
    if clients == [] then Ok([])
    else
      var n := |clients| - 1;
      match InterestsOf(clients[..n], env)
      case Raises(e) => Raises(e)
      case Ok(d) =>
        match env.getInterests(clients[n])
        case None => Raises(OracleError)
        case Some(v) =>
          if KeyOf(clients[n]).None? then Raises(TypeError) else Ok(DictSet(d, clients[n], v))
  }

  /**
   * The answer is a dict whose keys are client ids, no two equal; each key
   * equal to a listed id looks up the interests of the LAST listed id equal
   * to it, and no other key is stored.
   */
  lemma {:induction false} InterestsOfSpec(clients: seq<Value>, env: Env)
    requires InterestsOf(clients, env).Ok?
    ensures var d := InterestsOf(clients, env).value;
            && Distinct(d)
            && (forall i :: 0 <= i < |d| ==> d[i].0 in clients)
            && (forall k :: Lookup(d, k) == LastInterest(clients, k, env))
  {
    if clients != [] {
      var n := |clients| - 1;
      InterestsOfSpec(clients[..n], env);
      var d0 := InterestsOf(clients[..n], env).value;
      DictSetSpec(d0, clients[n], env.getInterests(clients[n]).value);
      assert forall x :: x in clients[..n] ==> x in clients;
    }
  }

  /** The answer is given exactly when every id is hashable and every call answers. */
  lemma {:induction false} InterestsOfAnswers(clients: seq<Value>, env: Env)
    ensures InterestsOf(clients, env).Ok?
            <==> forall c :: c in clients ==> KeyOf(c).Some? && env.getInterests(c).Some?
  {
    if clients != [] {
      var n := |clients| - 1;
      var c := clients[n];
      InterestsOfAnswers(clients[..n], env);
      assert InterestsOf(clients, env).Ok?
             <==> InterestsOf(clients[..n], env).Ok? && env.getInterests(c).Some? && KeyOf(c).Some?;
      assert forall x :: x in clients <==> x in clients[..n] || x == c by {
        assert clients == clients[..n] + [c];
      }
    }
  }

  /** `client_ids = [1, True]` answers one entry: the key `1`, with the interests of `True`. */
  lemma EqualIdsMerge(env: Env, a: Value, b: Value)
    requires env.getInterests(VInt(1)) == Some(a) && env.getInterests(VBool(true)) == Some(b)
    ensures InterestsOf([VInt(1), VBool(true)], env) == Ok([(VInt(1), b)])
  {
    assert [VInt(1), VBool(true)][..1] == [VInt(1)];
    assert [VInt(1)][..0] == [];
    assert InterestsOf([], env) == Ok([]);
    assert DictSet([], VInt(1), a) == [(VInt(1), a)];
    assert InterestsOf([VInt(1)], env) == Ok([(VInt(1), a)]);
    assert KeyOf(VBool(true)) == Some(KNum(1.0)) && KeyOf(VInt(1)) == Some(KNum(1.0));
    assert Slot([(VInt(1), a)], KNum(1.0)) == 0;
    assert DictSet([(VInt(1), a)], VBool(true), b) == [(VInt(1), b)];
  }

  /** `client_ids = [[1]]` passes validation as a non-empty list, then raises TypeError. */
  lemma UnhashableIdRaises(env: Env)
    requires env.getInterests(VList([VInt(1)])).Some?
    ensures InterestsOf([VList([VInt(1)])], env) == Raises(TypeError)
  {
    assert [VList([VInt(1)])][..0] == [];
  }

  /** `get_interests` as the program runs it: a loop filling the response dict. */
  method GetInterests(clients: seq<Value>, env: Env) returns (r: Result<Dict>)
    ensures r == InterestsOf(clients, env)
  {
    var response: Dict := [];
    var i := 0;
    while i < |clients|
      invariant 0 <= i <= |clients|
      invariant InterestsOf(clients[..i], env) == Ok(response)
    {
      assert clients[..i + 1][..i] == clients[..i];
      var v := env.getInterests(clients[i]);
      if v.None? {
        RaisesSticks(clients, env, i + 1);
        return Raises(OracleError);
      }
      if KeyOf(clients[i]).None? {
        RaisesSticks(clients, env, i + 1);
        return Raises(TypeError);
      }
      response := DictSet(response, clients[i], v.value);
      i := i + 1;
    }
    assert clients[..i] == clients;
    r := Ok(response);
  }

  /** Once a call raises, the whole run raises that exception. */
  lemma {:induction false} RaisesSticks(clients: seq<Value>, env: Env, k: nat)
    requires k <= |clients| && InterestsOf(clients[..k], env).Raises?
    ensures InterestsOf(clients, env) == InterestsOf(clients[..k], env)
    decreases |clients| - k
  {
    if k < |clients| {
      assert clients[..k + 1][..k] == clients[..k];
      RaisesSticks(clients, env, k + 1);
    } else {
      assert clients[..k] == clients;
    }
  }

  /** A branch's outcome, the context after it, and the labels of the request class it used. */
  datatype Step = Step(outcome: Outcome, ctx: Ctx, labels: seq<Option<Value>>)

  /**
   * `online_score` after validation and authentication: bind and validate
   * OnlineScoreRequest; with no errors, record the non-empty arguments and
   * score 43 for the admin, `get_score(store=None, **args)` otherwise.
   */
  function ScoreBranch(isAdmin: bool, labels: seq<Option<Value>>, args: Object, ctx: Ctx, env: Env): Step
    requires |labels| == |ScoreFields|
  {
    var bound := Assign(ScoreFields, labels, args);
    match Validation(ScoreFields, bound, env.cal)
    case Raises(e) => Step(Raised(e), ctx, bound)
    case Ok(basic) =>
      var verdict := ScoreValidate(NonEmptyPassed(args), basic);
      if !NoErrors(verdict) then Step(Response(Errors(verdict.value), InvalidRequest422), ctx, bound)
      else
        var ctx1 := ctx["has" := NameList(NonEmptyPassed(args))];
        if isAdmin then Step(Response(Score(VInt(AdminScore)), Ok200), ctx1, bound)
        else if HasKey(args, "store") then Step(Raised(TypeError), ctx1, bound)
        else match env.getScore(args)
          case Some(score) => Step(Response(Score(score), Ok200), ctx1, bound)
          case None => Step(Raised(OracleError), ctx1, bound)
  }

  /**
   * `clients_interests` after validation and authentication: with no
   * errors, record `len(client_ids)` and map each client id to its
   * interests.
   */
  function InterestsBranch(labels: seq<Option<Value>>, args: Object, ctx: Ctx, env: Env): Step
    requires |labels| == |InterestsFields|
  {
    var bound := Assign(InterestsFields, labels, args);
    match Validation(InterestsFields, bound, env.cal)
    case Raises(e) => Step(Raised(e), ctx, bound)
    case Ok(errors) =>
      if errors != [] then Step(Response(Errors(errors), InvalidRequest422), ctx, bound)
      else match Get(args, "client_ids")
        case None => Step(Raised(KeyError), ctx, bound)
        case Some(ids) =>
          match Len(ids)
          case None => Step(Raised(TypeError), ctx, bound)
          case Some(n) =>
            var ctx1 := ctx["nclients" := VInt(n)];
            match InterestsOf(Elements(ids), env)
            case Raises(e) => Step(Raised(e), ctx1, bound)
            case Ok(m) => Step(Response(Interests(m), Ok200), ctx1, bound)
  }

  /** `method_handler({"body": body, ...}, ctx, store)` of this revision. */
  function Handle(st: Labels, body: Value, ctx: Ctx, env: Env): Handled
    requires WellFormed(st)
  {
    match Spread(body)
    case Raises(e) => Handled(Raised(e), ctx, st)
    case Ok(b) =>
      var st1 := st.(main := Assign(MethodFields, st.main, b));
      match Validation(MethodFields, st1.main, env.cal)
      case Raises(e) => Handled(Raised(e), ctx, st1)
      case Ok(errors) =>
        if errors != [] then Handled(Response(Errors(errors), InvalidRequest422), ctx, st1)
        else match CheckAuth(b)
          case Raises(e) => Handled(Raised(e), ctx, st1)
          case Ok(false) => Handled(Response(Message("Forbidden"), Forbidden403), ctx, st1)
          case Ok(true) =>
            match Get(b, "method")
            case None => Handled(Raised(KeyError), ctx, st1)
            case Some(name) =>
              if name != VStr("online_score") && name != VStr("clients_interests") then Handled(ReturnsNone, ctx, st1)
              else match Get(b, "arguments")
                case None => Handled(Raised(KeyError), ctx, st1)
                case Some(a) =>
                  match Spread(a)
                  case Raises(e) => Handled(Raised(e), ctx, st1)
                  case Ok(args) =>
                    if name == VStr("online_score") then
                      var r := ScoreBranch(IsAdmin(st1.main), st1.score, args, ctx, env);
                      Handled(r.outcome, r.ctx, st1.(score := r.labels))
                    else
                      var r := InterestsBranch(st1.interests, args, ctx, env);
                      Handled(r.outcome, r.ctx, st1.(interests := r.labels))
  }

  /** `method_handler` on the three shared request classes. */
  method MethodHandler(mr: RequestClass, sr: RequestClass, ir: RequestClass, body: Value, ctx: Ctx, env: Env)
      returns (outcome: Outcome, ctxOut: Ctx)
    requires mr.fields == MethodFields && sr.fields == ScoreFields && ir.fields == InterestsFields
    requires mr.Valid() && sr.Valid() && ir.Valid()
    requires mr != sr && sr != ir && mr != ir
    modifies mr, sr, ir
    ensures mr.Valid() && sr.Valid() && ir.Valid()
    ensures Handled(outcome, ctxOut, Labels(mr.labels, sr.labels, ir.labels))
            == Handle(Labels(old(mr.labels), old(sr.labels), old(ir.labels)), body, ctx, env)
  {
    ctxOut := ctx;
    var spread := Spread(body);
    if spread.Raises? {
      return Raised(spread.exc), ctx;
    }
    var b := spread.value;
    var _ := mr.Bind(b);
    var mainErrors := mr.Validate(env.cal);
    if mainErrors.Raises? {
      return Raised(mainErrors.exc), ctx;
    }
    if mainErrors.value != [] {
      return Response(Errors(mainErrors.value), InvalidRequest422), ctx;
    }
    var auth := CheckAuth(b);
    if auth.Raises? {
      return Raised(auth.exc), ctx;
    }
    if !auth.value {
      return Response(Message("Forbidden"), Forbidden403), ctx;
    }
    var name := Get(b, "method");
    if name.None? {
      return Raised(KeyError), ctx;
    }
    if name.value != VStr("online_score") && name.value != VStr("clients_interests") {
      return ReturnsNone, ctx;
    }
    var a := Get(b, "arguments");
    if a.None? {
      return Raised(KeyError), ctx;
    }
    var args := Spread(a.value);
    if args.Raises? {
      return Raised(args.exc), ctx;
    }
    if name.value == VStr("online_score") {
      outcome, ctxOut := OnlineScore(sr, IsAdmin(mr.labels), args.value, ctx, env);
    } else {
      outcome, ctxOut := ClientsInterests(ir, args.value, ctx, env);
    }
  }

  /** The online-score branch on the shared OnlineScoreRequest class. */
  method OnlineScore(sr: RequestClass, isAdmin: bool, args: Object, ctx: Ctx, env: Env)
      returns (outcome: Outcome, ctxOut: Ctx)
    requires sr.fields == ScoreFields && sr.Valid()
    modifies sr
    ensures sr.Valid()
    ensures Step(outcome, ctxOut, sr.labels) == ScoreBranch(isAdmin, old(sr.labels), args, ctx, env)
  {
    var nonEmpty := sr.Bind(args);
    ctxOut := ctx;
    var basic := sr.Validate(env.cal);
    if basic.Raises? {
      return Raised(basic.exc), ctx;
    }
    var verdict := ScoreValidate(nonEmpty, basic.value);
    if !NoErrors(verdict) {
      return Response(Errors(verdict.value), InvalidRequest422), ctx;
    }
    ctxOut := ctx["has" := NameList(nonEmpty)];
    if isAdmin {
      outcome := Response(Score(VInt(AdminScore)), Ok200);
    } else if HasKey(args, "store") {
      outcome := Raised(TypeError);
    } else {
      var score := env.getScore(args);
      outcome := if score.Some? then Response(Score(score.value), Ok200) else Raised(OracleError);
    }
  }

  /** The clients-interests branch on the shared ClientsInterestsRequest class. */
  method ClientsInterests(ir: RequestClass, args: Object, ctx: Ctx, env: Env)
      returns (outcome: Outcome, ctxOut: Ctx)
    requires ir.fields == InterestsFields && ir.Valid()
    modifies ir
    ensures ir.Valid()
    ensures Step(outcome, ctxOut, ir.labels) == InterestsBranch(old(ir.labels), args, ctx, env)
  {
    var _ := ir.Bind(args);
    ctxOut := ctx;
    var errors := ir.Validate(env.cal);
    if errors.Raises? {
      return Raised(errors.exc), ctx;
    }
    if errors.value != [] {
      return Response(Errors(errors.value), InvalidRequest422), ctx;
    }
    var ids := Get(args, "client_ids");
    if ids.None? {
      return Raised(KeyError), ctx;
    }
    var n := Len(ids.value);
    if n.None? {
      return Raised(TypeError), ctx;
    }
    ctxOut := ctx["nclients" := VInt(n.value)];
    var m := GetInterests(Elements(ids.value), env);
    outcome := if m.Ok? then Response(Interests(m.value), Ok200) else Raised(m.exc);
  }

  // ---------------------------------------------------------------------
  // Properties of the handler

  /** This revision never answers 403: authentication cannot fail. */
  lemma NeverForbidden(st: Labels, body: Value, ctx: Ctx, env: Env)
    requires WellFormed(st)
    ensures var o := Handle(st, body, ctx, env).outcome;
            o.Response? ==> o.code == Ok200 || o.code == InvalidRequest422
  {
    match Spread(body)
    case Raises(_) =>
    case Ok(b) =>
      AuthNeverRefuses(b);
      var st1 := st.(main := Assign(MethodFields, st.main, b));
      match Get(b, "arguments")
      case None =>
      case Some(a) =>
        match Spread(a)
        case Raises(_) =>
        case Ok(args) =>
          BranchCodes(st1, args, ctx, env);
  }

  lemma BranchCodes(st: Labels, args: Object, ctx: Ctx, env: Env)
    requires WellFormed(st)
    ensures var o := ScoreBranch(IsAdmin(st.main), st.score, args, ctx, env).outcome;
            o.Response? ==> o.code == Ok200 || o.code == InvalidRequest422
    ensures var o := InterestsBranch(st.interests, args, ctx, env).outcome;
            o.Response? ==> o.code == Ok200 || o.code == InvalidRequest422
  {
  }

  /**
   * Before every MethodRequest field has been passed once, a request that
   * does not pass them all raises AttributeError in validation.
   */
  lemma FreshRequestRaises(b: Object, ctx: Ctx, env: Env, i: nat)
    requires !HasKey(b, "self") && i < |MethodFields| && !HasKey(b, MethodFields[i].name)
    ensures Handle(Fresh(), VDict(b), ctx, env).outcome == Raised(AttributeError)
  {
    GetSpec(b, MethodFields[i].name);
    AssignedKeeps(None, MethodFields[i], b);
    assert Assign(MethodFields, Fresh().main, b)[i].None?;
  }

  /** A validated request naming any other method makes the handler return None. */
  lemma UnknownMethodReturnsNone(st: Labels, b: Object, ctx: Ctx, env: Env, name: Value)
    requires WellFormed(st) && !HasKey(b, "self")
    requires Validation(MethodFields, Assign(MethodFields, st.main, b), env.cal) == Ok([])
    requires CheckAuth(b).Ok?
    requires Get(b, "method") == Some(name) && name != VStr("online_score") && name != VStr("clients_interests")
    ensures Handle(st, VDict(b), ctx, env).outcome == ReturnsNone
  {
    AuthNeverRefuses(b);
  }

  /** The login label after binding a body that passes a login once. */
  lemma LoginLabel(labels: seq<Option<Value>>, b: Object, k: nat)
    requires |labels| == |MethodFields| && AllSet(Assign(MethodFields, labels, b))
    requires k < |b| && b[k].0 == "login"
    requires forall i :: 0 <= i < |b| && i != k ==> b[i].0 != "login"
    ensures LabelOf(MethodFields, Values(Assign(MethodFields, labels, b)), "login") == Some(b[k].1)
  {
    var r := Values(Assign(MethodFields, labels, b));
    AssignedSets(labels[1], MethodFields[1], b, k);
    assert MethodFields[1..][0].name == "login";
    assert r[1..][0] == b[k].1;
  }

  /**
   * An admin login scores 43 with any token at all: a validated
   * online-score request with a field pair, whatever its "token".
   */
  lemma AnyTokenScoresAdmin(st: Labels, b: Object, args: Object, ctx: Ctx, env: Env, k: nat)
    requires WellFormed(st) && !HasKey(b, "self")
    requires Validation(MethodFields, Assign(MethodFields, st.main, b), env.cal) == Ok([])
    requires k < |b| && b[k] == ("login", VStr(AdminLogin))
    requires forall i :: 0 <= i < |b| && i != k ==> b[i].0 != "login"
    requires HasKey(b, "token")
    requires Get(b, "method") == Some(VStr("online_score")) && Get(b, "arguments") == Some(VDict(args))
    requires !HasKey(args, "self")
    requires Validation(ScoreFields, Assign(ScoreFields, st.score, args), env.cal) == Ok([])
    requires HasPair(NonEmptyPassed(args))
    ensures var h := Handle(st, VDict(b), ctx, env);
            h.outcome == Response(Score(VInt(AdminScore)), Ok200)
            && h.ctx == ctx["has" := NameList(NonEmptyPassed(args))]
  {
    GetSpec(b, "login");
    AuthNeverRefuses(b);
    LoginLabel(st.main, b, k);
  }

  /**
   * An answered clients-interests request recorded `len(client_ids)` in the
   * context; every listed id was hashable, and the reply is a dict of listed
   * ids in which each key looks up the interests of the last id equal to it.
   */
  lemma InterestsAnswered(labels: seq<Option<Value>>, args: Object, ctx: Ctx, env: Env)
    requires |labels| == |InterestsFields|
    ensures var r := InterestsBranch(labels, args, ctx, env);
            r.outcome.Response? && r.outcome.code == Ok200 ==>
              Get(args, "client_ids").Some?
              && Len(Get(args, "client_ids").value).Some?
              && r.ctx == ctx["nclients" := VInt(Len(Get(args, "client_ids").value).value)]
              && r.outcome.reply.Interests?
              && var ids := Elements(Get(args, "client_ids").value);
                 var d := r.outcome.reply.interests;
                 && (forall c :: c in ids ==> KeyOf(c).Some?)
                 && Distinct(d)
                 && (forall i :: 0 <= i < |d| ==> d[i].0 in ids)
                 && (forall k :: Lookup(d, k) == LastInterest(ids, k, env))
  {
    var r := InterestsBranch(labels, args, ctx, env);
    if r.outcome.Response? && r.outcome.code == Ok200 {
      InterestsOfSpec(Elements(Get(args, "client_ids").value), env);
      InterestsOfAnswers(Elements(Get(args, "client_ids").value), env);
    }
  }

  /** A MethodRequest field the body does not pass keeps its label, set or unset, from earlier requests. */
  lemma LabelsPersist(st: Labels, b: Object, ctx: Ctx, env: Env, i: nat)
    requires WellFormed(st) && !HasKey(b, "self") && i < |MethodFields|
    requires !HasKey(b, MethodFields[i].name)
    ensures Handle(st, VDict(b), ctx, env).st.main[i] == st.main[i]
  {
    HandleKeepsMain(st, b, ctx, env);
    GetSpec(b, MethodFields[i].name);
    AssignedKeeps(st.main[i], MethodFields[i], b);
  }
  /** Whatever the outcome, the MethodRequest labels are those bound from the body. */
  lemma HandleKeepsMain(st: Labels, b: Object, ctx: Ctx, env: Env)
    requires WellFormed(st) && !HasKey(b, "self")
    ensures Handle(st, VDict(b), ctx, env).st.main == Assign(MethodFields, st.main, b)
  {
  }

}

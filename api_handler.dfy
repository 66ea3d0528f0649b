/**
 * The later revision of the scoring API (W3_OOP/api_handler/api.py): the
 * request classes with their shared Field objects, and `method_handler`,
 * which validates a request, authenticates it and dispatches it to
 * `online_score` or `clients_interests`.
 *
 * The Field objects of a request class are class attributes, so every
 * instance of the class reads and writes the same labels. A request class
 * is therefore one object here, holding those labels; an instance's own
 * data (`non_empty_fields`, `error_dict`) is what its methods return.
 */
module ApiHandler {
  import opened Wrappers
  import opened Text
  import opened ApiFields
  import opened ApiRequest

  const Salt: String := "Otus"
  const UnknownMethodMsg: String := "Unknown method. Only 'online_score' and 'clients_interests' are available"
  const InterestsErrorMsg: String := "Error occurred during get_interests request"

  /** A request class: its declared fields and their shared labels. */
  class RequestClass {
    const fields: seq<Field>
    var labels: seq<Value>

    predicate Valid()
      reads this
    {
      |labels| == |fields|
    }

    /** Class creation: each Field object starts with `label=None`. */
    constructor (fields: seq<Field>)
      ensures this.fields == fields
      ensures labels == seq(|fields|, _ => VNull)
      ensures Valid()
    {
      this.fields := fields;
      labels := seq(|fields|, _ => VNull);
    }

    /**
     * `__init__(**kwargs)`: each declared field passed in `kwargs` takes the
     * passed value as its label, the others keep theirs; the result is
     * `non_empty_fields`.
     */
    method Bind(kwargs: Object) returns (nonEmpty: seq<String>)
      requires Valid()
      modifies this
      ensures Valid()
      ensures labels == Rebound(fields, old(labels), kwargs)
      ensures nonEmpty == NonEmptyDeclared(fields, kwargs)
    {
      nonEmpty := [];
      var i := 0;
      while i < |fields|
        invariant 0 <= i <= |fields| && |labels| == |fields|
        invariant forall j :: 0 <= j < i ==> labels[j] == Rebind(fields[j], old(labels)[j], kwargs)
        invariant forall j :: i <= j < |fields| ==> labels[j] == old(labels)[j]
        invariant nonEmpty == NonEmptyDeclared(fields[..i], kwargs)
      {
        var f := fields[i];
        var passed := Get(kwargs, f.name);
        if passed.Some? {
          labels := labels[i := passed.value];
          if !IsEmpty(passed.value) {
            nonEmpty := nonEmpty + [f.name];
          }
        }
        assert fields[..i + 1][..i] == fields[..i];
        i := i + 1;
      }
      assert fields[..i] == fields;
    }

    /** `BasicClassRequest.validate`: the error entries of every field, in declaration order. */
    method Validate(cal: Calendar) returns (errors: seq<Error>)
      requires Valid()
      ensures errors == FieldErrors(fields, labels, cal)
    {
      errors := [];
      var i := 0;
      while i < |fields|
        invariant 0 <= i <= |fields|
        invariant errors == FieldErrors(fields[..i], labels[..i], cal)
      {
        var f := fields[i];
        var v := labels[i];
        ghost var prev := errors;
        if IsEmpty(v) && !f.nullable {
          errors := errors + [(f.name, EmptyMsg)];
        }
        ghost var mid := errors;
        var msg := Check(f.kind, v, cal);
        if msg.Some? {
          errors := errors + [(f.name, msg.value)];
        }
        assert errors == prev + LabelErrors(f, v, cal) by {
          ghost var a := mid[|prev|..];
          ghost var b := errors[|mid|..];
          assert mid == prev + a && errors == mid + b;
          assert LabelErrors(f, v, cal) == a + b;
          Assoc(prev, a, b);
        }
        FieldErrorsStep(fields, labels, cal, i);
        i := i + 1;
      }
      assert fields[..i] == fields && labels[..i] == labels;
    }
  }

  /** The labels of the three request classes. */
  datatype Labels = Labels(main: seq<Value>, score: seq<Value>, interests: seq<Value>)

  predicate WellFormed(st: Labels)
  {
    |st.main| == |MethodFields| && |st.score| == |ScoreFields| && |st.interests| == |InterestsFields|
  }

  /** The state before the first request: every label None. */
  function Fresh(): (st: Labels)
    ensures WellFormed(st)
  {
    Labels(seq(|MethodFields|, _ => VNull), seq(|ScoreFields|, _ => VNull), seq(|InterestsFields|, _ => VNull))
  }

  /**
   * What the handler cannot compute itself: the date checks, the SHA-512
   * hex digests (the admin digest of the current hour, and the digest of
   * a string), and the scoring functions, None when they raise.
   */
  datatype Env = Env(
    cal: Calendar,
    adminDigest: String,
    digest: String -> String,
    getScore: Object -> Option<Value>,
    getInterests: Value -> Option<Value>)

  /** The reply of the handler. */
  datatype Reply = Errors(errors: seq<Error>) | Message(msg: String) | Score(score: Value) | Interests(interests: Value)

  /** What `method_handler` does: return (reply, code) or raise. */
  datatype Outcome = Response(reply: Reply, code: int) | Raised(exc: Exc)

  /** The request context dict. */
  type Ctx = map<String, Value>

  /** A handler's outcome, the context after it, and labels of the request class it used. */
  datatype Step = Step(outcome: Outcome, ctx: Ctx, labels: seq<Value>)

  /** The outcome, the context and the labels of all three classes after a request. */
  datatype Handled = Handled(outcome: Outcome, ctx: Ctx, st: Labels)

  /** `MethodRequest.is_admin`: the login label equals "admin". */
  predicate IsAdmin(labels: seq<Value>)
    requires |labels| == |MethodFields|
  {
    LabelOf(MethodFields, labels, "login") == Some(VStr(AdminLogin))
  }

  /**
   * `check_auth(body)`: the token must equal the digest of the hour for the
   * admin login, and the digest of account + login + salt otherwise. A
   * missing key raises KeyError and a non-string account or login raises
   * TypeError.
   */
  function CheckAuth(body: Object, env: Env): Result<bool>
  {
    var login := Get(body, "login");
    var account := Get(body, "account");
    var token := Get(body, "token");
    if login.None? then Raises(KeyError)
    else if login.value != VStr(AdminLogin) && account.None? then Raises(KeyError)
    else if login.value != VStr(AdminLogin) && !(account.value.VStr? && login.value.VStr?) then Raises(TypeError)
    else if token.None? then Raises(KeyError)
    else
      var digest := if login.value == VStr(AdminLogin) then env.adminDigest
                    else env.digest(account.value.s + login.value.s + Salt);
      Ok(token.value == VStr(digest))
  }

  /** The admin passes with the digest of the hour, whatever the account. */
  lemma AdminAuth(body: Object, env: Env)
    requires Get(body, "login") == Some(VStr(AdminLogin))
    requires Get(body, "token") == Some(VStr(env.adminDigest))
    ensures CheckAuth(body, env) == Ok(true)
  {
  }

  /** A user passes exactly when the token is the digest of account, login and salt. */
  lemma UserAuth(body: Object, env: Env, account: String, login: String, token: Value)
    requires Get(body, "login") == Some(VStr(login)) && login != AdminLogin
    requires Get(body, "account") == Some(VStr(account))
    requires Get(body, "token") == Some(token)
    ensures CheckAuth(body, env) == Ok(token == VStr(env.digest(account + login + Salt)))
  {
  }

  /** A token that is not a string never passes. */
  lemma NonStringTokenRefused(body: Object, env: Env)
    requires Get(body, "token").Some? && !Get(body, "token").value.VStr?
    ensures CheckAuth(body, env) != Ok(true)
  {
  }

  /**
   * `OnlineScoreRequest(**args).get_result(ctx, store, is_admin, **args)`:
   * the labels are bound before the call, which raises TypeError for an
   * argument named like one of its own parameters. Errors give 422; an
   * accepted request records its non-empty fields in the context and is
   * scored 43 for the admin, by `get_score` otherwise.
   */
  function ScoreResult(labels: seq<Value>, isAdmin: bool, args: Object, ctx: Ctx, env: Env): Step
    requires |labels| == |ScoreFields|
  {
    var bound := Rebound(ScoreFields, labels, args);
    if HasKey(args, "ctx") || HasKey(args, "store") || HasKey(args, "is_admin") then
      Step(Raised(TypeError), ctx, bound)
    else
      var nonEmpty := NonEmptyDeclared(ScoreFields, args);
      var verdict := ScoreValidate(nonEmpty, FieldErrors(ScoreFields, bound, env.cal));
      if !NoErrors(verdict) then Step(Response(Errors(verdict.value), InvalidRequest422), ctx, bound)
      else
        var ctx1 := ctx["has" := NameList(nonEmpty)];
        if isAdmin then Step(Response(Score(VInt(AdminScore)), Ok200), ctx1, bound)
        else match env.getScore(args)
          case Some(score) => Step(Response(Score(score), Ok200), ctx1, bound)
          case None => Step(Raised(OracleError), ctx1, bound)
  }

  /**
   * `ClientsInterestsRequest(**args).get_result(ctx, store, **args)`:
   * errors give 422; a missing `client_ids`, a failing `get_interests` or a
   * `len` that raises give the fixed message with 422; otherwise the
   * context records the number of clients.
   */
  function InterestsResult(labels: seq<Value>, args: Object, ctx: Ctx, env: Env): Step
    requires |labels| == |InterestsFields|
  {
    var bound := Rebound(InterestsFields, labels, args);
    if HasKey(args, "ctx") || HasKey(args, "store") then Step(Raised(TypeError), ctx, bound)
    else
      var errors := FieldErrors(InterestsFields, bound, env.cal);
      if errors != [] then Step(Response(Errors(errors), InvalidRequest422), ctx, bound)
      else
        var failed := Step(Response(Message(InterestsErrorMsg), InvalidRequest422), ctx, bound);
        match Get(args, "client_ids")
        case None => failed
        case Some(ids) =>
          match env.getInterests(ids)
          case None => failed
          case Some(interests) =>
            match Len(ids)
            case None => failed
            case Some(n) => Step(Response(Interests(interests), Ok200), ctx["nclients" := VInt(n)], bound)
  }

  /**
   * `method_handler({"body": body, ...}, ctx, store)`. The final "Unknown
   * error" branch of the source is unreachable: its condition is the
   * negation of the one before it.
   */
  function Handle(st: Labels, body: Value, ctx: Ctx, env: Env): Handled
    requires WellFormed(st)
  {
    match Spread(body)
    case Raises(e) => Handled(Raised(e), ctx, st)
    case Ok(b) =>
      var st1 := st.(main := Rebound(MethodFields, st.main, b));
      var errors := FieldErrors(MethodFields, st1.main, env.cal);
      if errors != [] then Handled(Response(Errors(errors), InvalidRequest422), ctx, st1)
      else match CheckAuth(b, env)
        case Raises(e) => Handled(Raised(e), ctx, st1)
        case Ok(false) => Handled(Response(Message("Forbidden"), Forbidden403), ctx, st1)
        case Ok(true) =>
          match Get(b, "method")
          case None => Handled(Raised(KeyError), ctx, st1)
          case Some(name) =>
            if name != VStr("online_score") && name != VStr("clients_interests") then
              Handled(Response(Message(UnknownMethodMsg), InvalidRequest422), ctx, st1)
            else match Get(b, "arguments")
              case None => Handled(Raised(KeyError), ctx, st1)
              case Some(a) =>
                match Spread(a)
                case Raises(e) => Handled(Raised(e), ctx, st1)
                case Ok(args) =>
                  if name == VStr("online_score") then
                    var r := ScoreResult(st1.score, IsAdmin(st1.main), args, ctx, env);
                    Handled(r.outcome, r.ctx, st1.(score := r.labels))
                  else
                    var r := InterestsResult(st1.interests, args, ctx, env);
                    Handled(r.outcome, r.ctx, st1.(interests := r.labels))
  }

  // ---------------------------------------------------------------------
  // The handler as the program runs it

  /** `OnlineScoreRequest(**args).get_result(...)` on the shared request class. */
  method GetScoreResult(sr: RequestClass, isAdmin: bool, args: Object, ctx: Ctx, env: Env)
      returns (outcome: Outcome, ctxOut: Ctx)
    requires sr.fields == ScoreFields && sr.Valid()
    modifies sr
    ensures sr.Valid()
    ensures Step(outcome, ctxOut, sr.labels) == ScoreResult(old(sr.labels), isAdmin, args, ctx, env)
  {
    var nonEmpty := sr.Bind(args);
    ctxOut := ctx;
    if HasKey(args, "ctx") || HasKey(args, "store") || HasKey(args, "is_admin") {
      outcome := Raised(TypeError);
      return;
    }
    var basic := sr.Validate(env.cal);
    var verdict := ScoreValidate(nonEmpty, basic);
    if !NoErrors(verdict) {
      outcome := Response(Errors(verdict.value), InvalidRequest422);
      return;
    }
    ctxOut := ctx["has" := NameList(nonEmpty)];
    if isAdmin {
      outcome := Response(Score(VInt(AdminScore)), Ok200);
    } else {
      var score := env.getScore(args);
      outcome := if score.Some? then Response(Score(score.value), Ok200) else Raised(OracleError);
    }
  }

  /** `ClientsInterestsRequest(**args).get_result(...)` on the shared request class. */
  method GetInterestsResult(ir: RequestClass, args: Object, ctx: Ctx, env: Env)
      returns (outcome: Outcome, ctxOut: Ctx)
    requires ir.fields == InterestsFields && ir.Valid()
    modifies ir
    ensures ir.Valid()
    ensures Step(outcome, ctxOut, ir.labels) == InterestsResult(old(ir.labels), args, ctx, env)
  {
    var _ := ir.Bind(args);
    ctxOut := ctx;
    if HasKey(args, "ctx") || HasKey(args, "store") {
      outcome := Raised(TypeError);
      return;
    }
    var errors := ir.Validate(env.cal);
    if errors != [] {
      outcome := Response(Errors(errors), InvalidRequest422);
      return;
    }
    outcome := Response(Message(InterestsErrorMsg), InvalidRequest422);
    var ids := Get(args, "client_ids");
    if ids.Some? {
      var interests := env.getInterests(ids.value);
      var n := Len(ids.value);
      if interests.Some? && n.Some? {
        ctxOut := ctx["nclients" := VInt(n.value)];
        outcome := Response(Interests(interests.value), Ok200);
      }
    }
  }

  /** `method_handler` on the three shared request classes. */
  method MethodHandler(mr: RequestClass, sr: RequestClass, ir: RequestClass, body: Value, ctx: Ctx, env: Env)
      returns (outcome: Outcome, ctxOut: Ctx)
    requires mr.fields == MethodFields && sr.fields == ScoreFields && ir.fields == InterestsFields
    requires mr.Valid() && sr.Valid() && ir.Valid()
    requires mr != sr && sr != ir && mr != ir
    modifies mr, sr, ir
    ensures mr.Valid() && sr.Valid() && ir.Valid()
    ensures Handled(outcome, ctxOut, Labels(mr.labels, sr.labels, ir.labels))
            == Handle(Labels(old(mr.labels), old(sr.labels), old(ir.labels)), body, ctx, env)
  {
    ctxOut := ctx;
    var spread := Spread(body);
    if spread.Raises? {
      outcome := Raised(spread.exc);
      return;
    }
    var _ := mr.Bind(spread.value);
    var errors := mr.Validate(env.cal);
    if errors != [] {
      outcome := Response(Errors(errors), InvalidRequest422);
      return;
    }
    var auth := CheckAuth(spread.value, env);
    if auth.Raises? {
      outcome := Raised(auth.exc);
      return;
    }
    if !auth.value {
      outcome := Response(Message("Forbidden"), Forbidden403);
      return;
    }
    var name := Get(spread.value, "method");
    if name.None? {
      outcome := Raised(KeyError);
      return;
    }
    if name.value != VStr("online_score") && name.value != VStr("clients_interests") {
      outcome := Response(Message(UnknownMethodMsg), InvalidRequest422);
      return;
    }
    var a := Get(spread.value, "arguments");
    if a.None? {
      outcome := Raised(KeyError);
      return;
    }
    var args := Spread(a.value);
    if args.Raises? {
      outcome := Raised(args.exc);
      return;
    }
    if name.value == VStr("online_score") {
      outcome, ctxOut := GetScoreResult(sr, IsAdmin(mr.labels), args.value, ctx, env);
    } else {
      outcome, ctxOut := GetInterestsResult(ir, args.value, ctx, env);
    }
  }

  // ---------------------------------------------------------------------
  // Properties of the handler

  /** Every reply carries 200, 403 or 422. */
  lemma HandleCodes(st: Labels, body: Value, ctx: Ctx, env: Env)
    requires WellFormed(st)
    ensures var o := Handle(st, body, ctx, env).outcome;
            o.Response? ==> o.code == Ok200 || o.code == Forbidden403 || o.code == InvalidRequest422
  {
  }

  /**
   * A request whose MethodRequest fields fail validation is answered 422
   * with the error list, before any authentication: the digests and the
   * scoring functions play no part.
   */
  lemma ValidationBeforeAuth(st: Labels, b: Object, ctx: Ctx, env: Env, env2: Env)
    requires WellFormed(st) && !HasKey(b, "self")
    requires FieldErrors(MethodFields, Rebound(MethodFields, st.main, b), env.cal) != []
    requires env2.cal == env.cal
    ensures Handle(st, VDict(b), ctx, env).outcome
            == Response(Errors(FieldErrors(MethodFields, Rebound(MethodFields, st.main, b), env.cal)), InvalidRequest422)
            == Handle(st, VDict(b), ctx, env2).outcome
  {
  }

  /** The answer is 403 exactly when the request validates and authentication fails without raising. */
  lemma ForbiddenExactly(st: Labels, body: Value, ctx: Ctx, env: Env)
    requires WellFormed(st)
    ensures Handle(st, body, ctx, env).outcome == Response(Message("Forbidden"), Forbidden403)
            <==> Spread(body).Ok?
                 && FieldErrors(MethodFields, Rebound(MethodFields, st.main, body.entries), env.cal) == []
                 && CheckAuth(body.entries, env) == Ok(false)
  {
    var h := Handle(st, body, ctx, env);
    if h.outcome == Response(Message("Forbidden"), Forbidden403) && Spread(body).Ok?
       && FieldErrors(MethodFields, Rebound(MethodFields, st.main, body.entries), env.cal) == []
       && CheckAuth(body.entries, env) == Ok(true) {
      var b := body.entries;
      var st1 := st.(main := Rebound(MethodFields, st.main, b));
      match Get(b, "method")
      case None =>
      case Some(name) =>
        if name == VStr("online_score") || name == VStr("clients_interests") {
          match Get(b, "arguments")
          case None =>
          case Some(a) =>
            match Spread(a)
            case Raises(_) =>
            case Ok(args) =>
              if name == VStr("online_score") {
                ScoreNotForbidden(st1.score, IsAdmin(st1.main), args, ctx, env);
              } else {
                InterestsNotForbidden(st1.interests, args, ctx, env);
              }
        }
    }
  }

  lemma ScoreNotForbidden(labels: seq<Value>, isAdmin: bool, args: Object, ctx: Ctx, env: Env)
    requires |labels| == |ScoreFields|
    ensures ScoreResult(labels, isAdmin, args, ctx, env).outcome != Response(Message("Forbidden"), Forbidden403)
  {
  }

  lemma InterestsNotForbidden(labels: seq<Value>, args: Object, ctx: Ctx, env: Env)
    requires |labels| == |InterestsFields|
    ensures InterestsResult(labels, args, ctx, env).outcome != Response(Message("Forbidden"), Forbidden403)
  {
  }

  /** A validated, authenticated request naming another method is answered 422. */
  lemma UnknownMethodRejected(st: Labels, b: Object, ctx: Ctx, env: Env, name: Value)
    requires WellFormed(st) && !HasKey(b, "self")
    requires FieldErrors(MethodFields, Rebound(MethodFields, st.main, b), env.cal) == []
    requires CheckAuth(b, env) == Ok(true)
    requires Get(b, "method") == Some(name) && name != VStr("online_score") && name != VStr("clients_interests")
    ensures Handle(st, VDict(b), ctx, env).outcome == Response(Message(UnknownMethodMsg), InvalidRequest422)
  {
  }

  /** The login label after binding a body that passes a login. */
  lemma LoginLabel(labels: seq<Value>, b: Object, login: Value)
    requires |labels| == |MethodFields|
    requires Get(b, "login") == Some(login)
    ensures LabelOf(MethodFields, Rebound(MethodFields, labels, b), "login") == Some(login)
  {
    var r := Rebound(MethodFields, labels, b);
    assert MethodFields[1..][0].name == "login";
    assert r[1..][0] == login;
  }

  /**
   * The admin, authenticated with the digest of the hour, gets score 43 for
   * an online-score request with a field pair, and the context records the
   * non-empty fields.
   */
  lemma AdminScoresFortyThree(st: Labels, b: Object, args: Object, ctx: Ctx, env: Env)
    requires WellFormed(st) && !HasKey(b, "self")
    requires FieldErrors(MethodFields, Rebound(MethodFields, st.main, b), env.cal) == []
    requires Get(b, "login") == Some(VStr(AdminLogin)) && Get(b, "token") == Some(VStr(env.adminDigest))
    requires Get(b, "method") == Some(VStr("online_score")) && Get(b, "arguments") == Some(VDict(args))
    requires !HasKey(args, "self") && !HasKey(args, "ctx") && !HasKey(args, "store") && !HasKey(args, "is_admin")
    requires HasPair(NonEmptyDeclared(ScoreFields, args))
    ensures var h := Handle(st, VDict(b), ctx, env);
            h.outcome == Response(Score(VInt(AdminScore)), Ok200)
            && h.ctx == ctx["has" := NameList(NonEmptyDeclared(ScoreFields, args))]
  {
    AdminAuth(b, env);
    LoginLabel(st.main, b, VStr(AdminLogin));
  }

  /** A scored request has a field pair, and its non-empty fields are in the context. */
  lemma ScoredHasPair(labels: seq<Value>, isAdmin: bool, args: Object, ctx: Ctx, env: Env)
    requires |labels| == |ScoreFields|
    ensures var r := ScoreResult(labels, isAdmin, args, ctx, env);
            r.outcome.Response? && r.outcome.code == Ok200 ==>
              HasPair(NonEmptyDeclared(ScoreFields, args))
              && r.ctx == ctx["has" := NameList(NonEmptyDeclared(ScoreFields, args))]
  {
  }

  /**
   * An answered clients-interests request passed a non-empty list of
   * client ids, and the context records how many.
   */
  lemma InterestsCounted(labels: seq<Value>, args: Object, ctx: Ctx, env: Env)
    requires |labels| == |InterestsFields|
    ensures var r := InterestsResult(labels, args, ctx, env);
            r.outcome.Response? && r.outcome.code == Ok200 ==>
              Get(args, "client_ids").Some? && Get(args, "client_ids").value.VList?
              && Get(args, "client_ids").value.items != []
              && r.ctx == ctx["nclients" := VInt(|Get(args, "client_ids").value.items|)]
  {
    var r := InterestsResult(labels, args, ctx, env);
    if r.outcome.Response? && r.outcome.code == Ok200 {
      var bound := Rebound(InterestsFields, labels, args);
      FieldErrorsEmpty(InterestsFields, bound, env.cal);
      assert LabelErrors(InterestsFields[0], bound[0], env.cal) == [];
      LabelErrorsEmpty(InterestsFields[0], bound[0], env.cal);
      TypeChecks(bound[0], env.cal);
    }
  }

  /** A MethodRequest field the body does not pass keeps the label of an earlier request. */
  lemma LabelsPersist(st: Labels, b: Object, ctx: Ctx, env: Env, i: nat)
    requires WellFormed(st) && !HasKey(b, "self") && i < |MethodFields|
    requires !HasKey(b, MethodFields[i].name)
    ensures Handle(st, VDict(b), ctx, env).st.main[i] == st.main[i]
  {
    HandleKeepsMain(st, b, ctx, env);
  }
  /** Whatever the outcome, the MethodRequest labels are those bound from the body. */
  lemma HandleKeepsMain(st: Labels, b: Object, ctx: Ctx, env: Env)
    requires WellFormed(st) && !HasKey(b, "self")
    ensures Handle(st, VDict(b), ctx, env).st.main == Rebound(MethodFields, st.main, b)
  {
  }


  /** Before any request, a body without "method" is answered 422 with "cannot be empty" for it. */
  lemma FreshMissingMethod(b: Object, ctx: Ctx, env: Env)
    requires !HasKey(b, "self") && !HasKey(b, "method")
    ensures var o := Handle(Fresh(), VDict(b), ctx, env).outcome;
            o.Response? && o.code == InvalidRequest422 && o.reply.Errors? && ("method", EmptyMsg) in o.reply.errors
  {
    var bound := Rebound(MethodFields, Fresh().main, b);
    assert bound[4] == VNull;
    FieldErrorsStep(MethodFields, bound, env.cal, 4);
    assert MethodFields[..5] == MethodFields && bound[..5] == bound;
  }

  /**
   * After a request that set the method label, a body without "method"
   * passes validation on the stale label and, once authenticated, raises
   * KeyError where the source reads the body's "method".
   */
  lemma StaleMethodRaises(st: Labels, b: Object, ctx: Ctx, env: Env)
    requires WellFormed(st) && !HasKey(b, "self") && !HasKey(b, "method")
    requires FieldErrors(MethodFields, Rebound(MethodFields, st.main, b), env.cal) == []
    requires CheckAuth(b, env) == Ok(true)
    ensures Handle(st, VDict(b), ctx, env).outcome == Raised(KeyError)
  {
  }
}

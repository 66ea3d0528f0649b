/**
 * The request-validation framework shared by both revisions of the scoring
 * API (W3_OOP/api_handler/api.py and the earlier W3_OOP/api.py): the
 * declared fields of each request class, the per-field error entries that
 * `validate` collects, the names of the non-empty arguments, and the
 * "at least one field pair" rule of the online-score request.
 */
module ApiRequest {
  import opened Wrappers
  import opened Text
  import opened ApiFields

  /** A decoded JSON object, as the keyword arguments of a call: its entries in order. */
  type Object = seq<(String, Value)>

  /** `d[k]` for a key that is present, `None` for one that is not. */
  function Get(o: Object, k: String): Option<Value>
  {
    if o == [] then None
    else if o[0].0 == k then Some(o[0].1)
    else Get(o[1..], k)
  }

  /** A key is found exactly when some entry carries it, and its value is that of an entry. */
  lemma {:induction false} GetSpec(o: Object, k: String)
    ensures Get(o, k).None? <==> forall i :: 0 <= i < |o| ==> o[i].0 != k
    ensures Get(o, k).Some? ==> exists i :: 0 <= i < |o| && o[i] == (k, Get(o, k).value)
  {
    if o != [] && o[0].0 != k {
      GetSpec(o[1..], k);
      if Get(o, k).Some? {
        var i :| 0 <= i < |o[1..]| && o[1..][i] == (k, Get(o, k).value);
        assert o[i + 1] == (k, Get(o, k).value);
      }
    }
  }

  /** `k in d`. */
  predicate HasKey(o: Object, k: String) { Get(o, k).Some? }

  /**
   * The exceptions that escape a handler; `OracleError` is whatever the
   * scoring functions raise.
   */
  datatype Exc = TypeError | KeyError | AttributeError | OracleError

  /** A value, or the exception raised instead of producing it. */
  datatype Result<T> = Ok(value: T) | Raises(exc: Exc)

  /**
   * Passing `x` as `**x` to `__init__(self, **kwargs)`: `x` must be a
   * mapping, and a key "self" collides with the positional parameter.
   */
  function Spread(x: Value): (r: Result<Object>)
    ensures r.Ok? <==> x.VDict? && !HasKey(x.entries, "self")
    ensures r.Ok? ==> r.value == x.entries
  {
    if !x.VDict? || HasKey(x.entries, "self") then Raises(TypeError) else Ok(x.entries)
  }

  /** One (field name, message) entry of an error list. */
  type Error = (String, String)

  /** A Field object declared on a request class. */
  datatype Field = Field(name: String, kind: Kind, required: bool, nullable: bool)

  /** The fields of MethodRequest, in declaration order. */
  const MethodFields: seq<Field> := [
    Field("account", Char, false, true),
    Field("login", Char, true, true),
    Field("token", Char, true, true),
    Field("arguments", Arguments, true, true),
    Field("method", Char, true, false)
  ]

  /** The fields of OnlineScoreRequest, in declaration order. */
  const ScoreFields: seq<Field> := [
    Field("first_name", Char, false, true),
    Field("last_name", Char, false, true),
    Field("email", Email, false, true),
    Field("phone", Phone, false, true),
    Field("birthday", BirthDay, false, true),
    Field("gender", Gender, false, true)
  ]

  /** The fields of ClientsInterestsRequest, in declaration order. */
  const InterestsFields: seq<Field> := [
    Field("client_ids", ClientIds, true, false),
    Field("date", Date, false, true)
  ]

  const AdminLogin: String := "admin"
  const Ok200: int := 200
  const Forbidden403: int := 403
  const InvalidRequest422: int := 422
  const AdminScore: int := 43
  const EmptyMsg: String := "This field cannot be empty"
  const MultipleMsg: String := "You need to fill at least one combination of the following fields: email-phone, first_name-last_name, gender-birthday"

  // ---------------------------------------------------------------------
  // Errors of one field

  /**
   * The entries `validate` adds for one field whose label is `v`: "cannot be
   * empty" for an empty label of a non-nullable field, then the validator's
   * message. The "This field is required" test needs a field without a
   * label attribute; it is reached only when the label exists, so it never
   * adds an entry.
   */
  function LabelErrors(f: Field, v: Value, cal: Calendar): seq<Error>
  {
    (if IsEmpty(v) && !f.nullable then [(f.name, EmptyMsg)] else [])
    + (match Check(f.kind, v, cal) case Some(msg) => [(f.name, msg)] case None => [])
  }

  /** A field reports nothing exactly when its label is allowed to be what it is. */
  lemma LabelErrorsEmpty(f: Field, v: Value, cal: Calendar)
    ensures LabelErrors(f, v, cal) == [] <==> (!IsEmpty(v) || f.nullable) && Check(f.kind, v, cal).None?
    ensures |LabelErrors(f, v, cal)| <= 2
    ensures forall e :: e in LabelErrors(f, v, cal) ==> e.0 == f.name
  {
  }

  /** An empty label of a non-nullable field is reported once, and only with "cannot be empty". */
  lemma EmptyNonNullable(f: Field, v: Value, cal: Calendar)
    requires IsEmpty(v) && !f.nullable
    ensures LabelErrors(f, v, cal) == [(f.name, EmptyMsg)]
  {
  }

  /** The error list of a whole request class: each field's entries, in declaration order. */
  function FieldErrors(fields: seq<Field>, labels: seq<Value>, cal: Calendar): seq<Error>
    requires |labels| == |fields|
  {
    if fields == [] then []
    else
      var n := |fields| - 1;
      FieldErrors(fields[..n], labels[..n], cal) + LabelErrors(fields[n], labels[n], cal)
  }

  /** The list is empty exactly when every field is fine; every entry names a declared field. */
  lemma {:induction false} FieldErrorsEmpty(fields: seq<Field>, labels: seq<Value>, cal: Calendar)
    requires |labels| == |fields|
    ensures FieldErrors(fields, labels, cal) == [] <==>
      forall i :: 0 <= i < |fields| ==> LabelErrors(fields[i], labels[i], cal) == []
  {
    if fields != [] {
      var n := |fields| - 1;
      FieldErrorsEmpty(fields[..n], labels[..n], cal);
      assert forall i :: 0 <= i < n ==> fields[..n][i] == fields[i] && labels[..n][i] == labels[i];
    }
  }

  /** Every entry names a declared field. */
  lemma {:induction false} FieldErrorsNames(fields: seq<Field>, labels: seq<Value>, cal: Calendar)
    requires |labels| == |fields|
    ensures forall e :: e in FieldErrors(fields, labels, cal) ==> exists i :: 0 <= i < |fields| && fields[i].name == e.0
  {
    if fields != [] {
      var n := |fields| - 1;
      FieldErrorsNames(fields[..n], labels[..n], cal);
      LabelErrorsEmpty(fields[n], labels[n], cal);
      forall e | e in FieldErrors(fields, labels, cal)
        ensures exists i :: 0 <= i < |fields| && fields[i].name == e.0
      {
        if e in FieldErrors(fields[..n], labels[..n], cal) {
          var i :| 0 <= i < n && fields[..n][i].name == e.0;
          assert fields[i].name == e.0;
        } else {
          assert fields[n].name == e.0;
        }
      }
    }
  }

  // ---------------------------------------------------------------------
  // Arguments

  /** The label a field has after binding `kwargs`: the passed value, or the one it had. */
  function Rebind(f: Field, old_label: Value, kwargs: Object): Value
  {
    match Get(kwargs, f.name)
    case Some(v) => v
    case None => old_label
  }

  /** The labels of all fields after binding `kwargs` in the later revision. */
  function Rebound(fields: seq<Field>, labels: seq<Value>, kwargs: Object): (r: seq<Value>)
    requires |labels| == |fields|
    ensures |r| == |fields|
  {
    seq(|fields|, i requires 0 <= i < |fields| => Rebind(fields[i], labels[i], kwargs))
  }

  /** The label of the first field with the given name. */
  function LabelOf(fields: seq<Field>, labels: seq<Value>, name: String): Option<Value>
    requires |labels| == |fields|
  {
    if fields == [] then None
    else if fields[0].name == name then Some(labels[0])
    else LabelOf(fields[1..], labels[1..], name)
  }

  /**
   * `non_empty_fields` of the later revision: the declared fields whose
   * passed value is not empty, in declaration order.
   */
  function NonEmptyDeclared(fields: seq<Field>, kwargs: Object): seq<String>
  {
    if fields == [] then []
    else
      var n := |fields| - 1;
      var name := fields[n].name;
      NonEmptyDeclared(fields[..n], kwargs)
      + (if Get(kwargs, name).Some? && !IsEmpty(Get(kwargs, name).value) then [name] else [])
  }

  /** Some field of the request is called `x`. */
  predicate Declares(fields: seq<Field>, x: String)
  {
    exists i :: 0 <= i < |fields| && fields[i].name == x
  }

  /** A name is declared by a list exactly when it is declared by all but the
    * last field, or by the last one. */
  lemma {:induction false} DeclaresLast(fields: seq<Field>, x: String)
    requires fields != []
    ensures Declares(fields, x) <==> Declares(fields[..|fields| - 1], x) || fields[|fields| - 1].name == x
  {
    var n := |fields| - 1;
    if Declares(fields, x) {
      var i :| 0 <= i < |fields| && fields[i].name == x;
      if i < n {
        assert fields[..n][i].name == x;
      }
    }
    if Declares(fields[..n], x) {
      var i :| 0 <= i < n && fields[..n][i].name == x;
      assert fields[i].name == x;
    }
  }

  /** A name is listed exactly when it is declared and passed with a non-empty value: undeclared keys are ignored. */
  lemma {:induction false} NonEmptyDeclaredSpec(fields: seq<Field>, kwargs: Object, x: String)
    ensures x in NonEmptyDeclared(fields, kwargs) <==>
      Declares(fields, x) && Get(kwargs, x).Some? && !IsEmpty(Get(kwargs, x).value)
  {
    if fields != [] {
      NonEmptyDeclaredSpec(fields[..|fields| - 1], kwargs, x);
      DeclaresLast(fields, x);
    }
  }

  /** `len(x)` of a JSON value, None when it raises TypeError. */
  function Len(x: Value): Option<nat>
  {
    match x
    case VStr(s) => Some(|s|)
    case VList(items) => Some(|items|)
    case VDict(entries) => Some(|entries|)
    case _ => None
  }

  /** The names of `non_empty_fields` as the list stored in the context. */
  function NameList(names: seq<String>): (r: Value)
    ensures r.VList? && |r.items| == |names|
    ensures forall i :: 0 <= i < |names| ==> r.items[i] == VStr(names[i])
  {
    VList(seq(|names|, i requires 0 <= i < |names| => VStr(names[i])))
  }

  // ---------------------------------------------------------------------
  // The pair rule of OnlineScoreRequest

  /** One of (email, phone), (first_name, last_name), (gender, birthday) is fully non-empty. */
  predicate HasPair(nonEmpty: seq<String>)
  {
    ("email" in nonEmpty && "phone" in nonEmpty)
    || ("first_name" in nonEmpty && "last_name" in nonEmpty)
    || ("gender" in nonEmpty && "birthday" in nonEmpty)
  }

  /**
   * `OnlineScoreRequest.validate` as written: with no pair it returns the
   * basic errors plus the 'multiple fields' entry; with a pair it falls off
   * the end and returns None.
   */
  function ScoreValidate(nonEmpty: seq<String>, basic: seq<Error>): Option<seq<Error>>
  {
    if !HasPair(nonEmpty) then Some(basic + [("multiple fields", MultipleMsg)]) else None
  }

  /** `error_dict in EMPTY_VALUES`: None or []. */
  predicate NoErrors(r: Option<seq<Error>>)
  {
    r.None? || r.value == []
  }

  /** As written, a request is accepted exactly when it has a pair, whatever its field errors. */
  lemma ScoreValidateAccepts(nonEmpty: seq<String>, basic: seq<Error>)
    ensures NoErrors(ScoreValidate(nonEmpty, basic)) <==> HasPair(nonEmpty)
    ensures !HasPair(nonEmpty) ==> ("multiple fields", MultipleMsg) in ScoreValidate(nonEmpty, basic).value
  {
  }

  /**
   * A counterexample to the evidently intended rule: an e-mail without an
   * '@' and a four-digit phone form a pair, so the request is accepted
   * although the e-mail field fails its validator.
   */
  lemma PairHidesFieldErrors(cal: Calendar)
    ensures var labels := [VNull, VNull, VStr("bad"), VStr("7123"), VNull, VNull];
            var basic := FieldErrors(ScoreFields, labels, cal);
            ("email", EmailMsg) in LabelErrors(ScoreFields[2], labels[2], cal)
            && basic != []
            && NoErrors(ScoreValidate(["email", "phone"], basic))
  {
    var labels := [VNull, VNull, VStr("bad"), VStr("7123"), VNull, VNull];
    BadEmailEntry(cal);
    FieldErrorsEmpty(ScoreFields, labels, cal);
  }

  lemma BadEmailEntry(cal: Calendar)
    ensures LabelErrors(ScoreFields[2], VStr("bad"), cal) == [("email", EmailMsg)]
  {
    BadHasNoAt();
  }

  /** One more field of a prefix adds its own entries at the end. */
  lemma FieldErrorsStep(fields: seq<Field>, labels: seq<Value>, cal: Calendar, k: nat)
    requires |labels| == |fields| && k < |fields|
    ensures FieldErrors(fields[..k + 1], labels[..k + 1], cal) ==
      FieldErrors(fields[..k], labels[..k], cal) + LabelErrors(fields[k], labels[k], cal)
  {
    assert fields[..k + 1][..k] == fields[..k];
    assert labels[..k + 1][..k] == labels[..k];
  }

  lemma BadHasNoAt()
    ensures !EmailMatches("bad")
  {
    assert BeforeFirst("bad", '@') == "bad" by {
      BeforeFirstNoSep("bad", '@');
    }
    assert "bad"[2] != '\n';
  }

  /** The evidently intended rule: the field errors are kept, and the pair entry added only when no pair exists. */
  function ScoreValidateFixed(nonEmpty: seq<String>, basic: seq<Error>): seq<Error>
  {
    basic + (if HasPair(nonEmpty) then [] else [("multiple fields", MultipleMsg)])
  }

  /** With the fix a request is accepted exactly when it has a pair and no field errors. */
  lemma ScoreValidateFixedAccepts(nonEmpty: seq<String>, basic: seq<Error>)
    ensures ScoreValidateFixed(nonEmpty, basic) == [] <==> HasPair(nonEmpty) && basic == []
    ensures forall e :: e in basic ==> e in ScoreValidateFixed(nonEmpty, basic)
  {
  }
}

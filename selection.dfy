/**
  The identity selector of a managed-service-identity credential and the form
  body it produces, as values.

  The credential object keeps three nullable fields (`Fields`); a fluent setter
  stores one and clears the other two (`Apply`). At most one of them is then
  ever set, so the state is equally a tagged union (`Selector`). The body of
  the token request is `resource=<resource>` followed by at most one selector
  parameter, concatenated without any URL-encoding (`PostData`). `ParseBody`
  is a reference reader of such a body, used to state what the body conveys.
 */
module Selection {
  import opened Wrappers

  /** The three selector fields of the credential; `None` is Java's `null`. */
  datatype Fields = Fields(objectId: Option<string>, servicePrincipalId: Option<string>, identityId: Option<string>)

  /** The fields of a freshly constructed credential. */
  const NoFields := Fields(None, None, None)

  /** Which of the three fields a setter targets. */
  datatype Kind = ObjectIdKind | ServicePrincipalIdKind | IdentityIdKind

  /** The order in which the request builder looks at the fields, first checked first. */
  function Precedence(k: Kind): nat {
    match k
    case ObjectIdKind => 0
    case ServicePrincipalIdKind => 1
    case IdentityIdKind => 2
  }

  function Get(f: Fields, k: Kind): Option<string> {
    match k
    case ObjectIdKind => f.objectId
    case ServicePrincipalIdKind => f.servicePrincipalId
    case IdentityIdKind => f.identityId
  }

  /** How many of the three fields are non-null. */
  function SetCount(f: Fields): nat {
    (if f.objectId.Some? then 1 else 0)
    + (if f.servicePrincipalId.Some? then 1 else 0)
    + (if f.identityId.Some? then 1 else 0)
  }

  predicate AtMostOne(f: Fields) {
    SetCount(f) <= 1
  }

  /** One call of a fluent setter, with its argument (which may be null). */
  datatype Setter = Setter(kind: Kind, value: Option<string>)

  /** The effect of one setter call: store the argument, clear the other two fields. */
  function Apply(f: Fields, call: Setter): (g: Fields)
    ensures Get(g, call.kind) == call.value
    ensures forall k :: k != call.kind ==> Get(g, k) == None
    ensures AtMostOne(g)
  {
    match call.kind
    case ObjectIdKind => Fields(call.value, None, None)
    case ServicePrincipalIdKind => Fields(None, call.value, None)
    case IdentityIdKind => Fields(None, None, call.value)
  }

  /** The effect of a chain of setter calls, first call first. */
  function ApplyAll(f: Fields, calls: seq<Setter>): Fields
    decreases |calls|
  {
    if calls == [] then f else ApplyAll(Apply(f, calls[0]), calls[1..])
  }

  /** A setter's result does not depend on what was set before it. */
  lemma ApplyForgetsPrevious(f: Fields, g: Fields, call: Setter)
    ensures Apply(f, call) == Apply(g, call)
  {
  }

  /** Any chain of setter calls keeps the "at most one selector" invariant. */
  lemma {:induction false} ApplyAllKeepsAtMostOne(f: Fields, calls: seq<Setter>)
    requires AtMostOne(f)
    ensures AtMostOne(ApplyAll(f, calls))
    decreases |calls|
  {
    if calls != [] {
      ApplyAllKeepsAtMostOne(Apply(f, calls[0]), calls[1..]);
    }
  }

  /** After a non-empty chain of setter calls only the last call matters. */
  lemma {:induction false} ApplyAllLastWins(f: Fields, calls: seq<Setter>)
    requires calls != []
    ensures ApplyAll(f, calls) == Apply(NoFields, calls[|calls| - 1])
    decreases |calls|
  {
    if |calls| > 1 {
      ApplyAllLastWins(Apply(f, calls[0]), calls[1..]);
    }
  }

  /** The selector as a tagged union: at most one identity is chosen. */
  datatype Selector = NoSelector | ObjectId(id: string) | ServicePrincipalId(id: string) | IdentityId(id: string)

  /** The field a selector comes from. */
  function KindOf(s: Selector): Kind
    requires s != NoSelector
  {
    match s
    case ObjectId(_) => ObjectIdKind
    case ServicePrincipalId(_) => ServicePrincipalIdKind
    case IdentityId(_) => IdentityIdKind
  }

  /**
    The selector the request uses: the object id if it is set, else the
    service principal id, else the identity id.
   */
  function Effective(f: Fields): (r: Selector)
    ensures r == NoSelector <==> SetCount(f) == 0
    ensures r != NoSelector ==> Get(f, KindOf(r)) == Some(r.id)
    ensures r != NoSelector ==> forall k :: Precedence(k) < Precedence(KindOf(r)) ==> Get(f, k) == None
  {
    if f.objectId.Some? then ObjectId(f.objectId.value)
    else if f.servicePrincipalId.Some? then ServicePrincipalId(f.servicePrincipalId.value)
    else if f.identityId.Some? then IdentityId(f.identityId.value)
    else NoSelector
  }

  /** The fields that hold exactly the given selector. */
  function FieldsOf(s: Selector): (f: Fields)
    ensures AtMostOne(f)
    ensures Effective(f) == s
  {
    match s
    case NoSelector => NoFields
    case ObjectId(v) => Fields(Some(v), None, None)
    case ServicePrincipalId(v) => Fields(None, Some(v), None)
    case IdentityId(v) => Fields(None, None, Some(v))
  }

  /**
    Under the invariant the chosen selector determines all three fields, so
    the precedence order never discards a set field.
   */
  lemma EffectiveDeterminesFields(f: Fields)
    requires AtMostOne(f)
    ensures FieldsOf(Effective(f)) == f
  {
  }

  /** The form key of a selector parameter. */
  function Key(s: Selector): string
    requires s != NoSelector
  {
    match s
    case ObjectId(_) => "object_id"
    case ServicePrincipalId(_) => "client_id"
    case IdentityId(_) => "ms_res_id"
  }

  /**
    The selector parameter appended to the body, if any, spelled with the same
    literal prefixes as the request builder; `ParamTextShape` ties it to `Key`.
   */
  function ParamText(s: Selector): (text: string)
    ensures text == "" <==> s == NoSelector
    ensures s != NoSelector ==> text[0] == '&' && |text| == 1 + |Key(s)| + 1 + |s.id|
  {
    match s
    case NoSelector => ""
    case ObjectId(v) => "&object_id=" + v
    case ServicePrincipalId(v) => "&client_id=" + v
    case IdentityId(v) => "&ms_res_id=" + v
  }

  /** A selector parameter is `&`, the selector's form key, `=`, and its value. */
  lemma ParamTextShape(s: Selector)
    requires s != NoSelector
    ensures ParamText(s) == ['&'] + (Key(s) + "=" + s.id)
  {
    match s
    case ObjectId(v) =>
      assert "&object_id=" + v == ['&'] + ("object_id" + "=" + v);
    case ServicePrincipalId(v) =>
      assert "&client_id=" + v == ['&'] + ("client_id" + "=" + v);
    case IdentityId(v) =>
      assert "&ms_res_id=" + v == ['&'] + ("ms_res_id" + "=" + v);
  }

  /** The form body of the token request; values are inserted verbatim. */
  function PostData(resource: string, s: Selector): (body: string)
    ensures |body| >= 9 + |resource| && body[..9 + |resource|] == "resource=" + resource
  {
    "resource=" + resource + ParamText(s)
  }

  /** The body is the bare resource parameter exactly when no selector is chosen. */
  lemma PostDataBare(resource: string, s: Selector)
    ensures PostData(resource, s) == "resource=" + resource <==> s == NoSelector
  {
    if s != NoSelector {
      assert |PostData(resource, s)| > |"resource=" + resource|;
    }
  }

  /** Index of the first `c` in `s`, or `|s|` when there is none. */
  function IndexOf(s: string, c: char): (i: nat)
    ensures i <= |s|
    ensures i < |s| ==> s[i] == c
    ensures forall j :: 0 <= j < i ==> s[j] != c
  {
    if s == [] then 0 else if s[0] == c then 0 else 1 + IndexOf(s[1..], c)
  }

  /** Reads one `key=value` parameter naming a selector. */
  function ParseParam(param: string): Option<Selector> {
    var j := IndexOf(param, '=');
    if j == |param| then None
    else
      var key, value := param[..j], param[j + 1..];
      if key == "object_id" then Some(ObjectId(value))
      else if key == "client_id" then Some(ServicePrincipalId(value))
      else if key == "ms_res_id" then Some(IdentityId(value))
      else None
  }

  /**
    A reader of form bodies of the shape `PostData` produces: the resource
    runs up to the first `&`, then one selector parameter follows.
   */
  function ParseBody(body: string): Option<(string, Selector)> {
    if |body| < 9 || body[..9] != "resource=" then None
    else
      var rest := body[9..];
      var i := IndexOf(rest, '&');
      if i == |rest| then Some((rest, NoSelector))
      else
        match ParseParam(rest[i + 1..])
        case None => None
        case Some(s) => Some((rest[..i], s))
  }

  lemma IndexOfAt(a: string, c: char, b: string)
    requires c !in a
    ensures IndexOf(a + [c] + b, c) == |a|
  {
    var s := a + [c] + b;
    assert s[|a|] == c;
    assert forall j :: 0 <= j < |a| ==> s[j] == a[j];
  }

  lemma IndexOfAbsent(a: string, c: char)
    requires c !in a
    ensures IndexOf(a, c) == |a|
  {
    assert forall j :: 0 <= j < |a| ==> a[j] != c;
  }

  /** A selector parameter reads back as the selector it was written for. */
  lemma ParamRoundTrip(s: Selector)
    requires s != NoSelector
    ensures ParseParam(Key(s) + "=" + s.id) == Some(s)
  {
    var key := Key(s);
    var param := key + "=" + s.id;
    assert param == key + ['='] + s.id;
    assert '=' !in key by {
      assert forall k :: 0 <= k < |key| ==> key[k] != '=';
    }
    IndexOfAt(key, '=', s.id);
    assert param[..|key|] == key && param[|key| + 1..] == s.id;
    match s
    case ObjectId(_) =>
    case ServicePrincipalId(_) =>
      assert key[0] != "object_id"[0];
    case IdentityId(_) =>
      assert key[0] != "object_id"[0] && key[0] != "client_id"[0];
  }

  /** A body with no `&` after the prefix reads as a bare resource. */
  lemma ParseBodyBare(resource: string)
    requires '&' !in resource
    ensures ParseBody("resource=" + resource) == Some((resource, NoSelector))
  {
    var body := "resource=" + resource;
    assert body[..9] == "resource=" && body[9..] == resource;
    IndexOfAbsent(resource, '&');
  }

  /** Otherwise the resource ends at the first `&`, and a parameter follows it. */
  lemma ParseBodyWithParam(resource: string, param: string, s: Selector)
    requires '&' !in resource
    requires ParseParam(param) == Some(s)
    ensures ParseBody("resource=" + resource + (['&'] + param)) == Some((resource, s))
  {
    var body := "resource=" + resource + (['&'] + param);
    assert body[..9] == "resource=";
    var rest := body[9..];
    assert rest == resource + ['&'] + param;
    IndexOfAt(resource, '&', param);
    assert rest[|resource| + 1..] == param && rest[..|resource|] == resource;
  }

  /**
    When the resource contains no `&`, the body conveys the resource and the
    selector exactly; selector values may contain any character.
   */
  lemma BodyRoundTrip(resource: string, s: Selector)
    requires '&' !in resource
    ensures ParseBody(PostData(resource, s)) == Some((resource, s))
  {
    if s == NoSelector {
      assert PostData(resource, s) == "resource=" + resource;
      ParseBodyBare(resource);
    } else {
      var param := Key(s) + "=" + s.id;
      ParamTextShape(s);
      assert PostData(resource, s) == "resource=" + resource + (['&'] + param);
      ParamRoundTrip(s);
      ParseBodyWithParam(resource, param, s);
    }
  }

  /** For `&`-free resources, distinct configurations give distinct bodies. */
  lemma PostDataInjective(r1: string, s1: Selector, r2: string, s2: Selector)
    requires '&' !in r1 && '&' !in r2
    requires PostData(r1, s1) == PostData(r2, s2)
    ensures r1 == r2 && s1 == s2
  {
    BodyRoundTrip(r1, s1);
    BodyRoundTrip(r2, s2);
  }

  /**
    Without URL-encoding, a resource containing `&` is indistinguishable from
    a shorter resource with a selector.
   */
  lemma AmpersandInResourceIsAmbiguous()
    ensures PostData("r&object_id=x", NoSelector) == PostData("r", ObjectId("x"))
  {
  }
}

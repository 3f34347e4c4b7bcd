/** The sign-up form of src/pages/Auth/Register.jsx: its submit walks the
    form's fields in declaration order and appends the truthy ones to the
    multipart payload. */
module Register {

  /** A field's value: typed text, a chosen file, or no file. */
  datatype FormValue = Text(s: string) | File(name: string) | NoFile

  /** JavaScript truthiness of a field: non-empty text or a file object. */
  predicate IsTruthy(v: FormValue)
  {
    match v
    case Text(s) => s != ""
    case File(_) => true
    case NoFile => false
  }

  /** One appended `FormData` entry. */
  datatype Entry = Entry(key: string, value: FormValue)

  datatype RegisterForm = RegisterForm(
    fullName: string, email: string, password: string, avatar: FormValue, coverImage: FormValue)

  /** The field names in the order the form state declares them. */
  const FieldOrder: seq<string> := ["fullName", "email", "password", "avatar", "coverImage"]

  /** A field's position in the declaration order. */
  function Rank(key: string): nat
  {
    if key == "fullName" then 0
    else if key == "email" then 1
    else if key == "password" then 2
    else if key == "avatar" then 3
    else 4
  }

  /** The form's fields as the `for...in` loop visits them. */
  function Entries(f: RegisterForm): (es: seq<Entry>)
    ensures |es| == |FieldOrder|
    ensures forall i :: 0 <= i < |es| ==> es[i].key == FieldOrder[i]
  {
    [Entry("fullName", Text(f.fullName)), Entry("email", Text(f.email)), Entry("password", Text(f.password)),
     Entry("avatar", f.avatar), Entry("coverImage", f.coverImage)]
  }

  /** Entries whose keys strictly follow the declaration order. */
  predicate InFieldOrder(es: seq<Entry>)
  {
    forall i, j :: 0 <= i < j < |es| ==> Rank(es[i].key) < Rank(es[j].key)
  }

  /** The entries with truthy values, in their original order. */
  function KeepTruthy(es: seq<Entry>): (r: seq<Entry>)
    ensures |r| <= |es|
    ensures forall e :: e in r <==> e in es && IsTruthy(e.value)
    decreases |es|
  {
    if es == [] then []
    else
      var last := es[|es| - 1];
      assert es == es[..|es| - 1] + [last];
      KeepTruthy(es[..|es| - 1]) + (if IsTruthy(last.value) then [last] else [])
  }

  /** Keeping only some entries does not disturb their order. */
  lemma {:induction false} KeepTruthyKeepsOrder(es: seq<Entry>)
    requires InFieldOrder(es)
    ensures InFieldOrder(KeepTruthy(es))
    decreases |es|
  {
    if es != [] {
      var init, last := es[..|es| - 1], es[|es| - 1];
      KeepTruthyKeepsOrder(init);
      var kept := KeepTruthy(init);
      forall e | e in kept
        ensures Rank(e.key) < Rank(last.key)
      {
        var k :| 0 <= k < |init| && init[k] == e;
        assert es[k] == e;
      }
    }
  }

  lemma FieldsInOrder(f: RegisterForm)
    ensures InFieldOrder(Entries(f))
  {
  }

  /** The payload of a submit: exactly the truthy fields, each once, in
      declaration order; empty text and a missing file are left out. */
  lemma PayloadShape(f: RegisterForm)
    ensures var p := KeepTruthy(Entries(f));
      && InFieldOrder(p)
      && (forall e :: e in p <==> e in Entries(f) && IsTruthy(e.value))
      && (Entry("fullName", Text(f.fullName)) in p <==> f.fullName != "")
      && (f.avatar.File? ==> Entry("avatar", f.avatar) in p)
      && (f.avatar.NoFile? ==> forall i :: 0 <= i < |p| ==> p[i].key != "avatar")
      && (forall i, j :: 0 <= i < j < |p| ==> p[i].key != p[j].key)
  {
    FieldsInOrder(f);
    KeepTruthyKeepsOrder(Entries(f));
    assert Entries(f)[0] == Entry("fullName", Text(f.fullName));
    assert Entries(f)[3] == Entry("avatar", f.avatar);
  }

  /** One more entry is kept exactly when it is truthy. */
  lemma KeepTruthyStep(es: seq<Entry>, i: nat)
    requires i < |es|
    ensures KeepTruthy(es[..i + 1]) == KeepTruthy(es[..i]) + (if IsTruthy(es[i].value) then [es[i]] else [])
  {
    assert es[..i + 1][..i] == es[..i];
  }

  /** `handleSubmit`: visits every field in order, appending the truthy
      ones, then sends the payload once. */
  method HandleSubmit(f: RegisterForm) returns (payload: seq<Entry>)
    ensures payload == KeepTruthy(Entries(f))
  {
    var fields := Entries(f);
    payload := [];
    var i := 0;
    while i < |fields|
      invariant 0 <= i <= |fields|
      invariant payload == KeepTruthy(fields[..i])
    {
      KeepTruthyStep(fields, i);
      if IsTruthy(fields[i].value) {
        payload := payload + [fields[i]];
      }
      i := i + 1;
    }
    assert fields[..i] == fields;
  }
}

/** The login screen: the shared access code typed by staff is compared with
    the `master_security_code` setting after stripping its quote characters
    and trimming it. A match stores the session flag and replaces the screen
    with the main navigator. */
module Login {
  import opened JsValues
  import opened Supabase

  predicate IsQuote(c: char) {
    c == '\'' || c == '"'
  }

  /** `s.replace(/['"]+/g, '')`: every quote character removed, every other
      character kept. */
  function StripQuotes(s: string): (r: string)
    ensures |r| <= |s|
    ensures forall i :: 0 <= i < |r| ==> !IsQuote(r[i])
  {
    if s == [] then []
    else if IsQuote(s[0]) then StripQuotes(s[1..])
    else [s[0]] + StripQuotes(s[1..])
  }

  /** On a single character: a quote goes, anything else stays. */
  lemma StripQuotesChar(c: char)
    ensures StripQuotes([c]) == if IsQuote(c) then [] else [c]
  {
    assert [c][1..] == [];
  }

  /** Stripping works piecewise, so the characters that survive keep their order. */
  lemma {:induction false} StripQuotesAppend(a: string, b: string)
    ensures StripQuotes(a + b) == StripQuotes(a) + StripQuotes(b)
  {
    if a != [] {
      assert (a + b)[0] == a[0];
      assert (a + b)[1..] == a[1..] + b;
      StripQuotesAppend(a[1..], b);
    } else {
      assert a + b == b;
    }
  }

  /** A string without quote characters is left as it is. */
  lemma {:induction false} StripQuotesFixed(s: string)
    requires forall i :: 0 <= i < |s| ==> !IsQuote(s[i])
    ensures StripQuotes(s) == s
  {
    if s != [] {
      StripQuotesFixed(s[1..]);
    }
  }

  /** The stored code as the screen compares it. */
  function Normalize(stored: string): (r: string)
    ensures forall i :: 0 <= i < |r| ==> !IsQuote(r[i])
    ensures r == [] || (!IsWhite(r[0]) && !IsWhite(r[|r| - 1]))
  {
    Trim(StripQuotes(stored))
  }

  lemma NormalizeIdempotent(stored: string)
    ensures Normalize(Normalize(stored)) == Normalize(stored)
  {
    var n := Normalize(stored);
    StripQuotesFixed(n);
    TrimFixed(n);
  }

  /** What `data?.value?.replace(...).trim()` gives: no value (undefined), the
      normalised text, or a value without a `replace` method, which throws. */
  datatype StoredCode = NoCode | Code(text: string) | NotText

  function ReadStoredCode(data: Value): (c: StoredCode)
    ensures c.Code? <==> OptMember(data, "value").Str?
    ensures c.Code? ==> c.text == Normalize(OptMember(data, "value").s)
    ensures c.NoCode? <==> OptMember(data, "value") == Undefined || OptMember(data, "value") == Null
  {
    match OptMember(data, "value")
    case Undefined => NoCode
    case Null => NoCode
    case Str(s) => Code(Normalize(s))
    case _ => NotText
  }

  /** The query the screen issues. */
  const LoginQuery: Call :=
    Call("app_settings", [Select("value", Undefined), Eq("key", Str("master_security_code")), Single])

  datatype Outcome = Granted | Denied | ConnectionError

  /** The outcome of one login attempt with `code` typed, given what the
      backend answered. The typed code itself is neither trimmed nor stripped. */
  function Attempt(code: string, answer: Settled): (o: Outcome)
    ensures o == Granted <==>
      !Fails(answer) && OptMember(answer.reply.data, "value").Str?
      && code == Normalize(OptMember(answer.reply.data, "value").s)
    ensures o == ConnectionError <==>
      Fails(answer) || ReadStoredCode(answer.reply.data).NotText?
  {
    if Fails(answer) then ConnectionError
    else
      match ReadStoredCode(answer.reply.data)
      case NotText => ConnectionError
      case NoCode => Denied
      case Code(stored) => if code == stored then Granted else Denied
  }

  /** The error line an attempt leaves on the screen: cleared on entry and
      set again only when access is not granted, with a different text for a
      wrong code and for a failure to check it. */
  function ErrorText(o: Outcome): (text: string)
    ensures text == "" <==> o == Granted
    ensures o == Denied ==> text == "Access Denied: Invalid Code"
    ensures o == ConnectionError ==> text == "System Connection Error"
  {
    match o
    case Granted => ""
    case Denied => "Access Denied: Invalid Code"
    case ConnectionError => "System Connection Error"
  }

  /** A code that starts or ends with white space, or holds a quote character,
      can never be accepted, whatever is stored. */
  lemma GrantedCodeIsNormal(code: string, answer: Settled)
    requires Attempt(code, answer) == Granted
    ensures forall i :: 0 <= i < |code| ==> !IsQuote(code[i])
    ensures code == [] || (!IsWhite(code[0]) && !IsWhite(code[|code| - 1]))
  {
  }

  /** A missing stored code never grants access. */
  lemma MissingCodeDenied(code: string, answer: Settled)
    requires answer.Resolved? && !Truthy(answer.reply.error)
    requires OptMember(answer.reply.data, "value") == Undefined
    ensures Attempt(code, answer) == Denied
  {
  }

  /** On the mock backend the one accepted code is 'lux_master_2026'. */
  lemma MockLogin(loadedAt: int, code: string)
    ensures Attempt(code, MockAwait(loadedAt, LoginQuery)) == (if code == MasterCode then Granted else Denied)
  {
    var filters := [Select("value", Undefined), Eq("key", Str("master_security_code"))];
    assert LoginQuery.ops == filters + [Single];
    MockSingle(loadedAt, "app_settings", filters);
    var answer := MockAwait(loadedAt, LoginQuery);
    assert answer == Resolved(Reply(Obj(map["value" := Str(MasterCode)]), Null, Undefined));
    assert !Fails(answer);
    assert OptMember(answer.reply.data, "value") == Str(MasterCode);
    MasterCodeNormal();
  }

  /** A code without quotes and without surrounding white space is its own
      normal form. */
  lemma NormalFixed(m: string)
    requires forall i :: 0 <= i < |m| ==> !IsQuote(m[i])
    requires m == [] || (!IsWhite(m[0]) && !IsWhite(m[|m| - 1]))
    ensures Normalize(m) == m
  {
    StripQuotesFixed(m);
    TrimFixed(m);
  }

  /** The canned master code is already in normal form. */
  lemma MasterCodeNormal()
    ensures Normalize(MasterCode) == MasterCode
  {
    assert forall i :: 0 <= i < |MasterCode| ==> !IsQuote(MasterCode[i]);
    assert !IsWhite(MasterCode[0]) && !IsWhite(MasterCode[|MasterCode| - 1]);
    NormalFixed(MasterCode);
  }

  class LoginScreen {
    var code: string
    var loading: bool
    var error: string
    /** The `welux_session` entry of the device storage. */
    var session: Option<string>
    /** The route the navigator was replaced with. */
    var route: Option<string>

    constructor ()
      ensures code == "" && !loading && error == "" && session == None && route == None
    {
      code, loading, error, session, route := "", false, "", None, None;
    }

    /** `handleLogin`, with the backend's answer to the query it issues. */
    method HandleLogin(backend: Backend) returns (query: Call)
      modifies this
      ensures query == LoginQuery && code == old(code) && !loading
      ensures error == ErrorText(Attempt(code, backend(query)))
      ensures Attempt(code, backend(query)) == Granted ==> session == Some("active") && route == Some("Main")
      ensures Attempt(code, backend(query)) != Granted ==> session == old(session) && route == old(route)
    {
      loading := true;
      error := "";
      query := LoginQuery;
      var answer := backend(query);
      if Fails(answer) {
        error := "System Connection Error";
      } else {
        var stored := ReadStoredCode(answer.reply.data);
        if stored.NotText? {
          error := "System Connection Error";
        } else if stored.Code? && code == stored.text {
          session := Some("active");
          route := Some("Main");
        } else {
          error := "Access Denied: Invalid Code";
        }
      }
      loading := false;
    }
  }
}

/**
 * The password-reset form mounted at /reset-password: its strength rule,
 * the order of its guards and what it sends.
 */
module ResetPassword {
  import opened Text
  import opened Outcomes
  import AppRoutes
  import RouteAccess
  import RegisterForm

  predicate HasUpper(s: string) { exists k :: 0 <= k < |s| && IsUpper(s[k]) }
  predicate HasLower(s: string) { exists k :: 0 <= k < |s| && IsLower(s[k]) }
  predicate HasDigit(s: string) { exists k :: 0 <= k < |s| && IsDigit(s[k]) }

  /** `.` matches every character of `s`. */
  predicate SingleLine(s: string) { forall k :: 0 <= k < |s| ==> !IsLineTerminator(s[k]) }

  /**
   * `isStrongPassword`, `/^(?=.*[A-Z])(?=.*[a-z])(?=.*\d).{8,}$/`: at least
   * eight UTF-16 units, none a line terminator, with an upper-case letter,
   * a lower-case letter and a digit.
   */
  predicate IsStrongPassword(pw: string) {
    Utf16Length(pw) >= 8 && SingleLine(pw) && HasUpper(pw) && HasLower(pw) && HasDigit(pw)
  }

  /** `(?=.*C)` at the start: a character of class C reached through a run of non-terminators. */
  ghost predicate LooksAhead(s: string, charClass: char -> bool) {
    exists k :: 0 <= k < |s| && charClass(s[k]) && SingleLine(s[..k])
  }

  /**
   * The pattern read operator by operator: three lookaheads from position
   * 0, then `.{8,}$`. Without the `u` flag `.` consumes one UTF-16 unit,
   * so a character above U+FFFF takes two of the eight.
   */
  ghost predicate PatternMatches(s: string) {
    LooksAhead(s, IsUpper) && LooksAhead(s, IsLower) && LooksAhead(s, IsDigit) && Utf16Length(s) >= 8 && SingleLine(s)
  }

  lemma LooksAheadIn(s: string, charClass: char -> bool)
    requires SingleLine(s)
    ensures LooksAhead(s, charClass) <==> exists k :: 0 <= k < |s| && charClass(s[k])
  {
    if k :| 0 <= k < |s| && charClass(s[k]) {
      assert SingleLine(s[..k]);
    }
  }

  /** The predicate accepts exactly the strings the pattern matches. */
  lemma StrongIffPattern(s: string)
    ensures IsStrongPassword(s) <==> PatternMatches(s)
  {
    if SingleLine(s) {
      LooksAheadIn(s, IsUpper);
      LooksAheadIn(s, IsLower);
      LooksAheadIn(s, IsDigit);
      assert LooksAhead(s, IsUpper) <==> HasUpper(s);
      assert LooksAhead(s, IsLower) <==> HasLower(s);
      assert LooksAhead(s, IsDigit) <==> HasDigit(s);
    }
  }

  /** Every password this form accepts also passes the registration rule. */
  lemma StrongPassesRegistration(pw: string)
    requires IsStrongPassword(pw)
    ensures !RegisterForm.WeakForRegistration(pw)
  {
  }

  /** The converse fails: registration accepts a password without a lower-case letter. */
  lemma RegistrationIsLaxer()
    ensures !RegisterForm.WeakForRegistration("ABCDEFG1") && !IsStrongPassword("ABCDEFG1")
  {
    var s := "ABCDEFG1";
    assert IsUpper(s[0]) && IsDigit(s[7]);
    assert !HasLower(s) by {
      forall k | 0 <= k < |s| ensures !IsLower(s[k]) {
      }
    }
  }

  /** `!token`: the route parameter is undefined or empty. */
  predicate TokenMissing(token: Option<string>) {
    token.None? || token.value == ""
  }

  /** What `handleReset` decided. */
  datatype Verdict = MissingToken | WeakPassword | Mismatch | Send(newPassword: string)

  /** The guard sequence of `handleReset`, checked in source order. */
  function Check(token: Option<string>, password: string, confirm: string): (v: Verdict)
    ensures v == MissingToken <==> TokenMissing(token)
    ensures v == WeakPassword <==> !TokenMissing(token) && !IsStrongPassword(password)
    ensures v == Mismatch <==> !TokenMissing(token) && IsStrongPassword(password) && password != confirm
    ensures v.Send? <==> !TokenMissing(token) && IsStrongPassword(password) && password == confirm
    ensures v.Send? ==> v.newPassword == password
  {
    if TokenMissing(token) then MissingToken
    else if !IsStrongPassword(password) then WeakPassword
    else if password != confirm then Mismatch
    else Send(password)
  }

  /** The value `useParams` gives for the pattern's `:token` segment, if it has one. */
  function TokenParam(pattern: seq<AppRoutes.Seg>, segs: seq<string>): (r: Option<string>)
    ensures r.Some? ==> exists i :: 0 <= i < |pattern| && i < |segs| && pattern[i] == AppRoutes.Param && r.value == segs[i]
    ensures r.None? ==> forall i :: 0 <= i < |pattern| && i < |segs| ==> pattern[i] != AppRoutes.Param
  {
    if pattern == [] || segs == [] then None
    else if pattern[0] == AppRoutes.Param then Some(segs[0])
    else
      var r := TokenParam(pattern[1..], segs[1..]);
      assert forall i :: 1 <= i < |pattern| && i < |segs| ==> pattern[i] == pattern[1..][i - 1] && segs[i] == segs[1..][i - 1];
      if r.Some? then
        var j :| 0 <= j < |pattern[1..]| && j < |segs[1..]| && pattern[1..][j] == AppRoutes.Param && r.value == segs[1..][j];
        assert pattern[j + 1] == AppRoutes.Param && r.value == segs[j + 1];
        r
      else r
  }

  /**
   * The form is routed at /reset-password, whose pattern has no `:token`,
   * so every submit stops at the first guard whatever was typed.
   */
  lemma MountedWithoutToken(segs: seq<string>, password: string, confirm: string)
    requires |segs| == 1 && Lower(segs[0]) == "reset-password"
    ensures TokenParam(AppRoutes.Resolve(segs).pattern, segs) == None
    ensures Check(TokenParam(AppRoutes.Resolve(segs).pattern, segs), password, confirm) == MissingToken
  {
    RouteAccess.ResetPasswordFormRoute(segs);
    var pattern := AppRoutes.Resolve(segs).pattern;
    assert pattern == [AppRoutes.Lit("reset-password")];
    assert TokenParam(pattern, segs) == None by {
      assert pattern[0] != AppRoutes.Param;
    }
  }

  /** What a submit led to. */
  datatype ResetResult = Refused(reason: Verdict) | Reset(navigateTo: string) | ResetFailed

  class ResetPasswordPage {
    const token: Option<string>
    var form: map<string, string>
    var loading: bool

    constructor (token: Option<string>)
      ensures this.token == token
      ensures form == map["password" := "", "confirm" := ""] && !loading
    {
      this.token := token;
      form := map["password" := "", "confirm" := ""];
      loading := false;
    }

    /** `handleChange`: exactly the named field takes the new value. */
    method HandleChange(name: string, value: string)
      modifies this
      ensures form == old(form)[name := value] && loading == old(loading)
    {
      form := form[name := value];
    }

    /**
     * `handleReset`: the guards of `Check` in order; only when all pass is
     * `{ newPassword: password }` sent, and the page then goes to /login on
     * success. `loading` is left alone by a refusal and cleared after a send.
     */
    method HandleReset(response: Outcome<()>) returns (res: ResetResult, sent: Option<string>)
      requires "password" in form && "confirm" in form
      modifies this
      ensures form == old(form)
      ensures var v := Check(token, form["password"], form["confirm"]);
        if v.Send? then sent == Some(v.newPassword) && !loading
          && (res == Reset("/login") <==> response.Success?) && (res == ResetFailed <==> response.Failure?)
        else sent == None && res == Refused(v) && loading == old(loading)
    {
      var v := Check(token, form["password"], form["confirm"]);
      if !v.Send? {
        return Refused(v), None;
      }
      loading := true;
      sent := Some(v.newPassword);
      if response.Success? {
        res := Reset("/login");
      } else {
        res := ResetFailed;
      }
      loading := false;
    }
  }
}

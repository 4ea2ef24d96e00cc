/**
 * The login page: its two identifier patterns, the form state and what a
 * submit does to the session and to local storage.
 */
module LoginForm {
  import opened Text
  import opened Json
  import opened Outcomes
  import opened Storage
  import opened AuthContext

  /** No whitespace character anywhere in `t`. */
  predicate NoSpace(t: string) {
    forall k :: 0 <= k < |t| ==> !IsSpace(t[k])
  }

  /** `t` has the shape x@y.z as a whole, with x, y and z non-empty. */
  predicate EmailShaped(t: string) {
    exists p, d :: 0 < p && p + 1 < d < |t| - 1 && t[p] == '@' && t[d] == '.'
  }

  /** Reference reading of `/\S+@\S+\.\S+/`: some whitespace-free substring is shaped x@y.z. */
  ghost predicate HasEmailShape(s: string) {
    exists i, j :: 0 <= i <= j <= |s| && NoSpace(s[i..j]) && EmailShaped(s[i..j])
  }

  /**
   * `isEmail`: an '@' and a later '.' with a non-space character before the
   * '@', at least one character between them, and one after the '.', and no
   * whitespace from the character before '@' to the one after '.'.
   */
  predicate IsEmail(s: string) {
    exists p, d :: 0 < p && p + 1 < d && d + 1 < |s| && s[p] == '@' && s[d] == '.' && NoSpace(s[p - 1..d + 2])
  }

  lemma NoSpaceSlice(t: string, a: int, b: int)
    requires NoSpace(t) && 0 <= a <= b <= |t|
    ensures NoSpace(t[a..b])
  {
    assert forall k :: 0 <= k < b - a ==> t[a..b][k] == t[a + k];
  }

  /** A match of `isEmail` exhibits a whitespace-free x@y.z: the shortest one around its '@'. */
  lemma IsEmailShaped(s: string)
    requires IsEmail(s)
    ensures HasEmailShape(s)
  {
    var p, d :| 0 < p && p + 1 < d && d + 1 < |s| && s[p] == '@' && s[d] == '.' && NoSpace(s[p - 1..d + 2]);
    var t := s[p - 1..d + 2];
    assert t[1] == '@' && t[d - p + 1] == '.';
    assert EmailShaped(t);
  }

  /** A slice of a slice is a slice of the whole. */
  lemma SliceOfSlice(s: string, i: int, j: int, a: int, b: int)
    requires 0 <= i <= j <= |s| && 0 <= a <= b <= j - i
    ensures s[i..j][a..b] == s[i + a..i + b]
  {
    assert forall k :: 0 <= k < b - a ==> s[i..j][a..b][k] == s[i + a + k];
  }

  /** Any whitespace-free x@y.z inside the identifier makes `isEmail` accept it. */
  lemma ShapedIsEmail(s: string)
    requires HasEmailShape(s)
    ensures IsEmail(s)
  {
    var i, j :| 0 <= i <= j <= |s| && NoSpace(s[i..j]) && EmailShaped(s[i..j]);
    var t := s[i..j];
    var p', d' :| 0 < p' && p' + 1 < d' < |t| - 1 && t[p'] == '@' && t[d'] == '.';
    var p, d := i + p', i + d';
    assert s[p] == t[p'] && s[d] == t[d'];
    NoSpaceSlice(t, p' - 1, d' + 2);
    SliceOfSlice(s, i, j, p' - 1, d' + 2);
    assert NoSpace(s[p - 1..d + 2]);
    assert 0 < p && p + 1 < d && d + 1 < |s| && s[p] == '@' && s[d] == '.';
  }

  /** `isEmail` accepts exactly the strings holding a whitespace-free x@y.z. */
  lemma IsEmailIffShape(s: string)
    ensures IsEmail(s) <==> HasEmailShape(s)
  {
    if IsEmail(s) { IsEmailShaped(s); }
    if HasEmailShape(s) { ShapedIsEmail(s); }
  }

  /** Whatever else it holds, an identifier `isEmail` accepts contains an '@'. */
  lemma IsEmailHasAt(s: string)
    requires IsEmail(s)
    ensures '@' in s
  {
    var p, d :| 0 < p && p + 1 < d && d + 1 < |s| && s[p] == '@' && s[d] == '.' && NoSpace(s[p - 1..d + 2]);
  }

  /** `isPhone`: `/^[0-9]{10,}$/`. */
  predicate IsPhone(s: string) {
    |s| >= 10 && forall k :: 0 <= k < |s| ==> IsDigit(s[k])
  }

  /** No identifier is both: a phone number has no '@'. */
  lemma PhoneIsNotEmail(s: string)
    requires IsPhone(s)
    ensures !IsEmail(s)
  {
    if IsEmail(s) {
      IsEmailHasAt(s);
      assert false;
    }
  }

  /** What happened to a submit. */
  datatype SubmitResult = MissingFields | Rejected | LoggedIn(navigateTo: string)

  /** The body sent to `login`: `{ emailOrPhone: identifier, password }`. */
  function Payload(identifier: Value, password: Value): (v: Value)
    ensures Get(v, "emailOrPhone") == identifier && Get(v, "password") == password
  {
    Obj(map["emailOrPhone" := identifier, "password" := password])
  }

  /**
   * The "valid email or phone" rejection after the payload is built can
   * never fire: past the empty-field guard, `emailOrPhone` is the truthy
   * identifier itself, whichever pattern matches.
   */
  lemma InvalidIdentifierUnreachable(identifier: Value, password: Value)
    requires Truthy(identifier) && Truthy(password)
    ensures Truthy(Get(Payload(identifier, password), "emailOrPhone"))
  {
  }

  /**
   * What a successful login leaves in local storage: the token and the
   * serialised user, and the identifier under 'rememberedLogin' when
   * remember-me is ticked, or no such entry when it is not.
   */
  function AfterLogin(items: map<string, string>, data: Value, userJson: string, remember: Value, identifier: Value): (r: map<string, string>)
    ensures "token" in r && r["token"] == ToStr(Get(data, "token"))
    ensures "user" in r && r["user"] == userJson
    ensures "rememberedLogin" in r <==> Truthy(remember)
    ensures Truthy(remember) ==> r["rememberedLogin"] == ToStr(identifier)
    ensures forall k :: k !in {"token", "user", "rememberedLogin"} ==> (k in r <==> k in items) && (k in r ==> r[k] == items[k])
  {
    var withToken := items["token" := ToStr(Get(data, "token"))]["user" := userJson];
    if Truthy(remember) then withToken["rememberedLogin" := ToStr(identifier)] else withToken - {"rememberedLogin"}
  }

  /** The token the session context has already stored is written again with the same value. */
  lemma AfterLoginAbsorbsToken(items: map<string, string>, data: Value, userJson: string, remember: Value, identifier: Value)
    ensures AfterLogin(items["token" := ToStr(Get(data, "token"))], data, userJson, remember, identifier)
      == AfterLogin(items, data, userJson, remember, identifier)
  {
    var t := ToStr(Get(data, "token"));
    assert items["token" := t]["token" := t] == items["token" := t];
  }

  class LoginPage {
    /** The `form` state: identifier, password and remember, or any other key a change event names. */
    var form: map<string, Value>
    var loading: bool
    const storage: LocalStorage

    /** The identifier is prefilled from 'rememberedLogin', and remember is ticked iff that was non-empty. */
    constructor (storage: LocalStorage)
      ensures this.storage == storage && !loading
      ensures var remembered := storage.GetItem("rememberedLogin").GetOr("");
        form == map["identifier" := Str(remembered), "password" := Str(""), "remember" := Bool(remembered != "")]
    {
      var remembered := storage.GetItem("rememberedLogin").GetOr("");
      form := map["identifier" := Str(remembered), "password" := Str(""), "remember" := Bool(remembered != "")];
      loading := false;
      this.storage := storage;
    }

    function Field(name: string): Value
      reads this
    {
      if name in form then form[name] else Undefined
    }

    /** `handleChange`: a checkbox writes its `checked` flag, any other input its value, and only under its own name. */
    method HandleChange(name: string, isCheckbox: bool, value: string, checked: bool)
      modifies this
      ensures form == old(form)[name := if isCheckbox then Bool(checked) else Str(value)]
      ensures loading == old(loading)
    {
      form := form[name := if isCheckbox then Bool(checked) else Str(value)];
    }

    /**
     * `handleSubmit`. With an empty identifier or password nothing is sent.
     * Otherwise `login` is called with the payload; on success the token,
     * the user (as serialised JSON, given here as `userJson`) and the
     * remember-me entry are stored and the page navigates to
     * `response.redirectTo || '/'`.
     */
    method HandleSubmit(auth: AuthProvider, response: Outcome<Value>, userJson: string) returns (res: SubmitResult)
      requires auth.storage == storage
      modifies this, auth, storage
      ensures form == old(form)
      ensures loading == (old(loading) && res == MissingFields)
      ensures !Truthy(old(Field("identifier"))) || !Truthy(old(Field("password"))) ==>
        res == MissingFields && storage.items == old(storage.items) && auth.user == old(auth.user)
      ensures res == MissingFields <==> !Truthy(old(Field("identifier"))) || !Truthy(old(Field("password")))
      ensures res.Rejected? <==> res != MissingFields && response.Failure?
      ensures res.Rejected? ==> storage.items == old(storage.items) && auth.user == old(auth.user)
      ensures res.LoggedIn? ==> (response.Success? && auth.user == Get(response.data, "user"))
      ensures res.LoggedIn? ==>
        storage.items == AfterLogin(old(storage.items), response.data, userJson, old(Field("remember")), old(Field("identifier")))
      ensures res.LoggedIn? ==> res.navigateTo == ToStr(Or(Get(response.data, "redirectTo"), Str("/")))
    {
      var identifier, password := Field("identifier"), Field("password");
      if !Truthy(identifier) || !Truthy(password) {
        return MissingFields;
      }
      var payload := Payload(identifier, password);
      InvalidIdentifierUnreachable(identifier, password);
      loading := true;
      var r := auth.Login(payload, response);
      match r {
        case Failure =>
          res := Rejected;
        case Success(data) =>
          AfterLoginAbsorbsToken(old(storage.items), data, userJson, Field("remember"), identifier);
          StoreSession(data, userJson, Field("remember"), identifier);
          res := LoggedIn(ToStr(Or(Get(data, "redirectTo"), Str("/"))));
      }
      loading := false;
    }

    /** The writes to local storage after a successful login. */
    method StoreSession(data: Value, userJson: string, remember: Value, identifier: Value)
      modifies storage
      ensures storage.items == AfterLogin(old(storage.items), data, userJson, remember, identifier)
    {
      storage.SetItem("token", ToStr(Get(data, "token")));
      storage.SetItem("user", userJson);
      if Truthy(remember) {
        storage.SetItem("rememberedLogin", ToStr(identifier));
      } else {
        storage.RemoveItem("rememberedLogin");
      }
    }
  }
}

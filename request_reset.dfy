/**
 * The "forgot password" page: the address check and the submit that asks
 * for a reset link.
 */
module RequestReset {
  import opened Text
  import opened Outcomes

  /** `[^\s@]`: neither whitespace nor '@'. */
  predicate Plain(c: char) { !IsSpace(c) && c != '@' }

  /** `[^\s@]*` over the whole of `t`. */
  predicate AllPlain(t: string) { forall k :: 0 <= k < |t| ==> Plain(t[k]) }

  /**
   * `/^[^\s@]+@[^\s@]+\.[^\s@]+$/` on an already trimmed string: an '@' at
   * `p` with only plain characters on either side of it, and a '.' at `d`
   * with at least one character between '@' and '.' and one after '.'.
   */
  predicate EmailPattern(t: string) {
    exists p, d :: 0 < p && p + 1 < d < |t| - 1 && t[p] == '@' && t[d] == '.' && AllPlain(t[..p]) && AllPlain(t[p + 1..])
  }

  /** `isValidEmail`: the pattern applied to the trimmed input. */
  predicate IsValidEmail(value: string) {
    EmailPattern(Trim(value))
  }

  /** `[^\s@]+`: a non-empty run of plain characters. */
  predicate Part(t: string) { |t| > 0 && AllPlain(t) }

  /** Reference reading of the pattern: the string is x@y.z for three plain parts. */
  ghost predicate Decomposes(t: string) {
    exists x, y, z :: Part(x) && Part(y) && Part(z) && t == x + "@" + y + "." + z
  }

  lemma AllPlainSlice(t: string, a: int, b: int)
    requires AllPlain(t) && 0 <= a <= b <= |t|
    ensures AllPlain(t[a..b])
  {
    assert forall k :: 0 <= k < b - a ==> t[a..b][k] == t[a + k];
  }

  lemma PatternDecomposes(t: string)
    requires EmailPattern(t)
    ensures Decomposes(t)
  {
    var p, d :| 0 < p && p + 1 < d < |t| - 1 && t[p] == '@' && t[d] == '.' && AllPlain(t[..p]) && AllPlain(t[p + 1..]);
    var x, y, z := t[..p], t[p + 1..d], t[d + 1..];
    var rest := t[p + 1..];
    AllPlainSlice(rest, 0, d - p - 1);
    AllPlainSlice(rest, d - p, |rest|);
    assert rest[0..d - p - 1] == y && rest[d - p..|rest|] == z;
    assert Part(x) && Part(y) && Part(z);
    Glue(t, p, d);
  }

  /** Cutting at the '@' and the '.' and gluing the pieces back gives the string. */
  lemma Glue(t: string, p: int, d: int)
    requires 0 <= p < d < |t| && t[p] == '@' && t[d] == '.'
    ensures t == t[..p] + "@" + t[p + 1..d] + "." + t[d + 1..]
  {
    assert t[p..] == "@" + t[p + 1..] && t == t[..p] + t[p..];
    assert t[p + 1..] == t[p + 1..d] + t[d..] && t[d..] == "." + t[d + 1..];
  }

  lemma DecompositionMatches(t: string)
    requires Decomposes(t)
    ensures EmailPattern(t)
  {
    var x, y, z :| Part(x) && Part(y) && Part(z) && t == x + "@" + y + "." + z;
    var p, d := |x|, |x| + 1 + |y|;
    assert t[p] == '@' && t[d] == '.';
    assert t[..p] == x;
    assert t[p + 1..] == y + "." + z;
    assert AllPlain(y + "." + z) by {
      forall k | 0 <= k < |y + "." + z| ensures Plain((y + "." + z)[k]) {
        if k < |y| { assert (y + "." + z)[k] == y[k]; }
        else if k > |y| { assert (y + "." + z)[k] == z[k - |y| - 1]; }
      }
    }
  }

  /** The pattern accepts exactly the strings of the form x@y.z with plain, non-empty x, y and z. */
  lemma PatternIffDecomposes(t: string)
    ensures EmailPattern(t) <==> Decomposes(t)
  {
    if EmailPattern(t) { PatternDecomposes(t); }
    if Decomposes(t) { DecompositionMatches(t); }
  }

  /** An '@' with no other '@' on either side is the only one. */
  lemma SingleAt(t: string, p: int)
    requires 0 <= p < |t| && t[p] == '@' && AllPlain(t[..p]) && AllPlain(t[p + 1..])
    ensures Count(t, '@') == 1
  {
    assert t == t[..p] + [t[p]] + t[p + 1..];
    CountConcat(t[..p] + [t[p]], t[p + 1..], '@');
    CountConcat(t[..p], [t[p]], '@');
    CountZeroIffAbsent(t[..p], '@');
    CountZeroIffAbsent(t[p + 1..], '@');
    assert '@' !in t[..p] by {
      forall k | 0 <= k < p ensures t[..p][k] != '@' { assert Plain(t[..p][k]); }
    }
    var rest := t[p + 1..];
    assert '@' !in rest by {
      forall k | 0 <= k < |rest| ensures rest[k] != '@' { assert Plain(rest[k]); }
    }
    assert Count([t[p]], '@') == 1;
  }

  /** Plain characters around a single '@' leave no whitespace anywhere. */
  lemma NoSpaceAround(t: string, p: int)
    requires 0 <= p < |t| && t[p] == '@' && AllPlain(t[..p]) && AllPlain(t[p + 1..])
    ensures forall k :: 0 <= k < |t| ==> !IsSpace(t[k])
  {
    forall k | 0 <= k < |t| ensures !IsSpace(t[k]) {
      if k < p { assert t[k] == t[..p][k]; }
      else if k > p { assert t[k] == t[p + 1..][k - p - 1]; }
    }
  }

  /**
   * What an accepted address looks like: no whitespace at all, exactly one
   * '@' with something before it, and a '.' after it with at least one
   * character on each side.
   */
  lemma ValidEmailShape(value: string)
    requires IsValidEmail(value)
    ensures var t := Trim(value);
      (forall k :: 0 <= k < |t| ==> !IsSpace(t[k])) && Count(t, '@') == 1 && t[0] != '@'
      && exists p, d :: 0 < p && p + 1 < d < |t| - 1 && t[p] == '@' && t[d] == '.'
  {
    var t := Trim(value);
    var p, d :| 0 < p && p + 1 < d < |t| - 1 && t[p] == '@' && t[d] == '.' && AllPlain(t[..p]) && AllPlain(t[p + 1..]);
    SingleAt(t, p);
    NoSpaceAround(t, p);
    assert t[0] == t[..p][0];
  }

  class RequestResetPage {
    var email: string
    var loading: bool

    constructor ()
      ensures email == "" && !loading
    {
      email := "";
      loading := false;
    }

    /** The input's `onChange`. */
    method SetEmail(value: string)
      modifies this
      ensures email == value && loading == old(loading)
    {
      email := value;
    }

    /**
     * `handleSubmit`: an invalid address sends nothing and changes nothing;
     * a valid one sends `{ email: email.trim() }`, clears the field only
     * when the request succeeds, and leaves `loading` false.
     */
    method HandleSubmit(response: Outcome<()>) returns (sent: Option<string>)
      modifies this
      ensures !IsValidEmail(old(email)) ==> sent == None && email == old(email) && loading == old(loading)
      ensures IsValidEmail(old(email)) ==> sent == Some(Trim(old(email))) && !loading
      ensures IsValidEmail(old(email)) ==> email == (if response.Success? then "" else old(email))
    {
      if !IsValidEmail(email) {
        return None;
      }
      loading := true;
      sent := Some(Trim(email));
      if response.Success? {
        email := "";
      }
      loading := false;
    }
  }
}

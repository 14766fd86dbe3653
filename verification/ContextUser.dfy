/**
 Which end user a database call is attributed to: the value the caller named, trimmed and cut to
 the byte length the database allows.
 */
module ContextUser {
  import opened Wrappers
  import opened Text

  function Utf8Length(c: char): (n: nat)
    ensures 1 <= n <= 4
  {
    if c < '\U{80}' then 1 else if c < '\U{800}' then 2 else if c < '\U{10000}' then 3 else 4
  }

  function ByteLength(s: string): nat
    decreases |s|
  {
    if s == [] then 0 else ByteLength(s[..|s| - 1]) + Utf8Length(s[|s| - 1])
  }

  /** `cut` is the longest prefix of `value` within `maxBytes`. */
  predicate LongestPrefix(value: string, maxBytes: nat, cut: string) {
    && cut <= value
    && ByteLength(cut) <= maxBytes
    && (cut == value || ByteLength(value[..|cut| + 1]) > maxBytes)
  }

  lemma {:induction false} PrefixesAreShorter(s: string, n: nat)
    requires n <= |s|
    ensures ByteLength(s[..n]) + (|s| - n) <= ByteLength(s)
    decreases |s|
  {
    if n < |s| {
      assert s[..|s| - 1][..n] == s[..n];
      PrefixesAreShorter(s[..|s| - 1], n);
    } else {
      assert s[..n] == s;
    }
  }

  /** There is only one such prefix. */
  lemma LongestPrefixIsUnique(value: string, maxBytes: nat, a: string, b: string)
    requires LongestPrefix(value, maxBytes, a) && LongestPrefix(value, maxBytes, b)
    ensures a == b
  {
    assert a == value[..|a|] && b == value[..|b|];
    if |a| < |b| {
      assert b[..|a| + 1] == value[..|a| + 1];
      PrefixesAreShorter(b, |a| + 1);
    } else if |b| < |a| {
      assert a[..|b| + 1] == value[..|b| + 1];
      PrefixesAreShorter(a, |b| + 1);
    }
  }

  /** The name cut to the limit. */
  function Truncate(value: string, maxBytes: nat): (cut: string)
    ensures cut <= value && ByteLength(cut) <= maxBytes
    decreases |value|
  {
    if ByteLength(value) <= maxBytes then value else Truncate(value[..|value| - 1], maxBytes)
  }

  lemma {:induction false} TruncateIsLongest(value: string, maxBytes: nat)
    ensures LongestPrefix(value, maxBytes, Truncate(value, maxBytes))
    decreases |value|
  {
    if ByteLength(value) <= maxBytes {
    } else {
      var shorter := value[..|value| - 1];
      TruncateIsLongest(shorter, maxBytes);
      var cut := Truncate(shorter, maxBytes);
      if cut == shorter {
        assert value[..|cut| + 1] == value;
      } else {
        assert value[..|cut| + 1] == shorter[..|cut| + 1];
      }
    }
  }

  /** Where one more character would not fit, or none is left, the cut is the longest there is. */
  lemma StopsAtLongest(value: string, maxBytes: nat, i: nat)
    requires i <= |value| && ByteLength(value[..i]) <= maxBytes
    requires i == |value| || ByteLength(value[..i + 1]) > maxBytes
    ensures LongestPrefix(value, maxBytes, value[..i]) && value[..i] == Truncate(value, maxBytes)
  {
    assert i == |value| ==> value[..i] == value;
    assert LongestPrefix(value, maxBytes, value[..i]);
    TruncateIsLongest(value, maxBytes);
    LongestPrefixIsUnique(value, maxBytes, value[..i], Truncate(value, maxBytes));
  }

  method TruncateBytes(value: string, maxBytes: nat) returns (result: string)
    ensures result == Truncate(value, maxBytes) && LongestPrefix(value, maxBytes, result)
  {
    if ByteLength(value) <= maxBytes {
      return value;
    }
    result := "";
    var i := 0;
    while i < |value|
      invariant 0 <= i <= |value| && result == value[..i]
      invariant ByteLength(value[..i]) <= maxBytes
    {
      var longer := result + [value[i]];
      assert longer == value[..i + 1];
      if ByteLength(longer) > maxBytes {
        break;
      }
      result := longer;
      i := i + 1;
    }
    StopsAtLongest(value, maxBytes, i);
  }

  // ---------- Resolution ----------

  datatype Policy = Policy(enabled: bool, required: bool, maxLength: nat)

  datatype Resolution = Refused | NoUser | User(name: string)

  /** The name the call gives: `username` counts only when `contextUser` is not given at all. */
  function GivenName(contextUser: Option<string>, username: Option<string>): string {
    Trim(if contextUser.Some? then contextUser.value else username.GetOr(""))
  }

  /** The user a call runs for. */
  function Resolve(policy: Policy, contextUser: Option<string>, username: Option<string>): Resolution {
    var raw := GivenName(contextUser, username);
    if !policy.enabled then NoUser
    else if raw == "" then if policy.required then Refused else NoUser
    else User(Truncate(raw, policy.maxLength))
  }

  method ResolveContextUser(policy: Policy, contextUser: Option<string>, username: Option<string>)
    returns (r: Resolution)
    ensures r == Resolve(policy, contextUser, username)
    ensures r.Refused? <==> policy.enabled && policy.required && GivenName(contextUser, username) == ""
    ensures r.User? ==> LongestPrefix(GivenName(contextUser, username), policy.maxLength, r.name)
  {
    var raw := GivenName(contextUser, username);
    if !policy.enabled {
      return NoUser;
    }
    if raw == "" {
      if policy.required {
        return Refused;
      }
      return NoUser;
    }
    var name := TruncateBytes(raw, policy.maxLength);
    return User(name);
  }

  /** A named user counts on every source that keeps users at all; what is given as context user wins. */
  lemma NamedUserIsKept(policy: Policy, contextUser: Option<string>, username: Option<string>)
    ensures contextUser.Some? ==> Resolve(policy, contextUser, username) == Resolve(policy, contextUser, None)
    ensures contextUser == None ==> Resolve(policy, None, username) == Resolve(policy, username, None)
    ensures contextUser.Some? && Trim(contextUser.value) != "" && policy.enabled ==>
              var r := Resolve(policy, contextUser, username);
              r.User? && LongestPrefix(Trim(contextUser.value), policy.maxLength, r.name)
    ensures !policy.enabled ==> Resolve(policy, contextUser, username) == NoUser
  {
    TruncateIsLongest(Trim(contextUser.GetOr("")), policy.maxLength);
    assert Trim("") == "";
  }

  /**
   A source that requires a user still runs a call without one when the name is cut to nothing,
   and that happens exactly when the limit is below the bytes of the name's first character.
   */
  lemma CutToNothingIff(policy: Policy, name: string, cut: string)
    requires name != "" && LongestPrefix(name, policy.maxLength, cut)
    ensures cut == "" <==> policy.maxLength < Utf8Length(name[0])
  {
    assert name[..1] == [name[0]];
    assert name[..1][..0] == "";
    assert ByteLength(name[..1]) == Utf8Length(name[0]);
    if cut != "" {
      assert cut[..1] == name[..1];
      PrefixesAreShorter(cut, 1);
    }
  }
}

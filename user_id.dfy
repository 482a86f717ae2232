/**
 * Normalisation of the session user before it is sent to the service:
 * `user?.replace(/\./g, '') || ''`.
 */
module UserId {
  import opened Wrappers

  /** `s.replace(/\./g, '')`: every '.' removed, every other character kept in order. */
  function StripDots(s: string): (r: string)
    ensures '.' !in r
    ensures |r| <= |s|
  {
    if s == [] then [] else (if s[0] == '.' then [] else [s[0]]) + StripDots(s[1..])
  }

  /** Exactly the dots go: every other character occurs as often as before. */
  lemma {:induction false} StripDotsCounts(s: string)
    ensures |StripDots(s)| == |s| - multiset(s)['.']
    ensures forall c :: c != '.' ==> multiset(StripDots(s))[c] == multiset(s)[c]
    decreases |s|
  {
    if s != [] {
      assert s == [s[0]] + s[1..];
      StripDotsCounts(s[1..]);
    }
  }

  /** Removing dots commutes with concatenation, so the relative order of the kept characters is the input's. */
  lemma {:induction false} StripDotsAppend(a: string, b: string)
    ensures StripDots(a + b) == StripDots(a) + StripDots(b)
    decreases |a|
  {
    if a == [] {
      assert a + b == b;
    } else {
      assert (a + b)[0] == a[0];
      assert (a + b)[1..] == a[1..] + b;
      StripDotsAppend(a[1..], b);
    }
  }

  /** A string without dots is left as it is. */
  lemma {:induction false} StripDotsKeepsDotFree(s: string)
    requires '.' !in s
    ensures StripDots(s) == s
    decreases |s|
  {
    if s != [] {
      assert s[0] != '.';
      assert '.' !in s[1..];
      StripDotsKeepsDotFree(s[1..]);
    }
  }

  /** A string is left unchanged exactly when it holds no dot. */
  lemma StripDotsFixedPoints(s: string)
    ensures StripDots(s) == s <==> '.' !in s
  {
  }

  lemma StripDotsIdempotent(s: string)
    ensures StripDots(StripDots(s)) == StripDots(s)
  {
    StripDotsKeepsDotFree(StripDots(s));
  }

  /** The user id sent as `userId` and as `cancelledBy`: dots stripped, a missing user is `''`. */
  function NormalizeUser(user: Option<string>): (id: string)
    ensures '.' !in id
    ensures user.None? ==> id == ""
    ensures user.Some? ==> id == StripDots(user.value)
  {
    match user
    case None => ""
    case Some(u) =>
      var stripped := StripDots(u);
      if stripped != "" then stripped else ""
  }

  lemma NormalizeUserIdempotent(user: Option<string>)
    ensures NormalizeUser(Some(NormalizeUser(user))) == NormalizeUser(user)
  {
    StripDotsKeepsDotFree(NormalizeUser(user));
  }

  /**
   * A RUT written with thousands separators and the same RUT written plainly give the same
   * lookup key: the plain digits.
   */
  lemma {:induction false} NormalizeUserDropsSeparators(a: string, b: string, c: string)
    requires '.' !in a && '.' !in b && '.' !in c
    ensures NormalizeUser(Some(a + "." + b + "." + c)) == NormalizeUser(Some(a + b + c)) == a + b + c
  {
    StripDotsKeepsDotFree(a);
    StripDotsKeepsDotFree(b);
    StripDotsKeepsDotFree(c);
    StripDotsKeepsDotFree(a + b + c);
    assert StripDots(".") == [];
    var x1 := a + ".";
    StripDotsAppend(a, ".");
    assert StripDots(x1) == a;
    var x2 := x1 + b;
    StripDotsAppend(x1, b);
    assert StripDots(x2) == a + b;
    var x3 := x2 + ".";
    StripDotsAppend(x2, ".");
    assert StripDots(x3) == a + b;
    StripDotsAppend(x3, c);
  }

  /** The instance "12.345.678"; the input is a parameter so that the solver does not unfold the literal. */
  lemma NormalizeUserExample(rut: string)
    requires rut == "12.345.678"
    ensures NormalizeUser(Some(rut)) == NormalizeUser(Some("12345678")) == "12345678"
  {
    NormalizeUserDropsSeparators("12", "345", "678");
    assert "12" + "." + "345" + "." + "678" == rut;
  }
}

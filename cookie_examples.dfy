/** The cookie scenario of the response side: a `Set-Cookie` header with a
    value and the attributes `HttpOnly`, `Secure` and `SameSite`, read back
    through the cookie helpers of `UnifiedResponseProcessor`. */
module CookieExamples {
  import opened Wrappers
  import opened Strings
  import opened Responses

  /** A piece with one leading blank strips to the rest when the rest is
      unpadded. */
  lemma StripOneBlank(s: string)
    requires |s| > 0 && !IsSpace(s[0]) && !IsSpace(s[|s| - 1])
    ensures Strip([' '] + s) == s
  {
    assert ([' '] + s)[1..] == s;
    assert LStrip([' '] + s) == LStrip(s);
    StripUnpadded(s);
  }

  /** Neither flag attribute is a `SameSite` attribute. */
  lemma HttpOnlyNotSameSite()
    ensures !IsAttribute(" HttpOnly", "samesite=")
  {
    assert Strip(" HttpOnly") == "HttpOnly" by {
      assert " HttpOnly" == [' '] + "HttpOnly";
      StripOneBlank("HttpOnly");
    }
    assert Lower("HttpOnly")[0] == 'h';
  }

  lemma SecureNotSameSite()
    ensures !IsAttribute(" Secure", "samesite=")
  {
    assert Strip(" Secure") == "Secure" by {
      assert " Secure" == [' '] + "Secure";
      StripOneBlank("Secure");
    }
    assert Lower("Secure")[1] == 'e';
  }

  lemma StripSameSite(s: string)
    requires |s| > 0 && !IsSpace(s[|s| - 1])
    ensures Strip(" SameSite=" + s) == "SameSite=" + s
  {
    assert " SameSite=" + s == [' '] + ("SameSite=" + s);
    StripOneBlank("SameSite=" + s);
  }

  lemma LowerSameSite(s: string)
    ensures Lower("SameSite=" + s) == "samesite" + ['='] + Lower(s)
  {
    LowerAppend("SameSite=", s);
    assert Lower("SameSite=") == "samesite=";
  }

  /** A `SameSite=<s>` attribute after one blank is the `SameSite`
      attribute, and its value is `s` lower-cased. */
  lemma SameSitePiece(s: string)
    requires |s| > 0 && !IsSpace(s[|s| - 1])
    ensures IsAttribute(" SameSite=" + s, "samesite=")
    ensures After(Lower(Strip(" SameSite=" + s)), "=") == Lower(s)
  {
    StripSameSite(s);
    LowerSameSite(s);
    AfterFirst("samesite", Lower(s), '=');
  }

  /** `b` occurs in `a + b + c` right after `a`. */
  lemma InMiddle(a: string, b: string, c: string)
    ensures OccursAt(a + b + c, b, |a|)
  {
    assert (a + b + c)[|a|..|a| + |b|] == b;
  }

  lemma JoinFour(a: string, b: string, c: string, d: string)
    ensures Join([a, b, c, d], ";") == a + ";" + b + ";" + c + ";" + d
  {
    assert [c, d][1..] == [d];
    assert Join([c, d], ";") == c + ";" + d;
    assert [b, c, d][1..] == [c, d];
    assert Join([b, c, d], ";") == b + ";" + (c + ";" + d);
    assert [a, b, c, d][1..] == [b, c, d];
    assert Join([a, b, c, d], ";") == a + ";" + (b + ";" + (c + ";" + d));
  }

  /** The search stops at the fourth piece when only it is the attribute. */
  lemma FourthAttribute(parts: seq<string>, prefix: string)
    requires |parts| == 4 && IsAttribute(parts[3], prefix)
    requires !IsAttribute(parts[0], prefix) && !IsAttribute(parts[1], prefix) && !IsAttribute(parts[2], prefix)
    ensures FirstAttribute(parts, prefix, 0) == Some(3)
  {
    var r := FirstAttribute(parts, prefix, 0);
    assert r.Some?;
  }

  /** `<name>=<value>; HttpOnly; Secure; SameSite=<s>`, piece by piece. */
  function FlaggedHeader(n: string, v: string, s: string): (r: string)
    ensures |r| == |n| + |v| + |s| + 30
  {
    n + "=" + v + ";" + " HttpOnly" + ";" + " Secure" + ";" + (" SameSite=" + s)
  }

  /** The header cuts at ";" into the pair and the three attributes. */
  lemma FlaggedPieces(n: string, v: string, s: string)
    requires ';' !in n && ';' !in v && ';' !in s
    ensures Split(FlaggedHeader(n, v, s), ";") == [n + "=" + v, " HttpOnly", " Secure", " SameSite=" + s]
  {
    var nv := n + "=" + v;
    var parts := [nv, " HttpOnly", " Secure", " SameSite=" + s];
    JoinFour(nv, " HttpOnly", " Secure", " SameSite=" + s);
    assert ';' !in " HttpOnly" && ';' !in " Secure" && ';' !in " SameSite=";
    assert ';' !in nv && ';' !in " SameSite=" + s;
    SplitJoinSingle(parts, ';');
  }

  /** The header holds both flag words. */
  lemma FlaggedWords(n: string, v: string, s: string)
    ensures Contains(FlaggedHeader(n, v, s), "HttpOnly") && Contains(FlaggedHeader(n, v, s), "Secure")
  {
    var nv := n + "=" + v;
    var h := FlaggedHeader(n, v, s);
    var tail := ";" + (" SameSite=" + s);
    assert Contains(h, "HttpOnly") by {
      assert " HttpOnly" == " " + "HttpOnly";
      assert h == (nv + ";" + " ") + "HttpOnly" + (";" + " Secure" + tail);
      InMiddle(nv + ";" + " ", "HttpOnly", ";" + " Secure" + tail);
    }
    assert " Secure" == " " + "Secure";
    assert h == (nv + ";" + " HttpOnly" + ";" + " ") + "Secure" + tail;
    InMiddle(nv + ";" + " HttpOnly" + ";" + " ", "Secure", tail);
  }

  /** The name and value of the header are `n` and `v`. */
  lemma FlaggedPair(n: string, v: string, s: string)
    requires |n| > 0 && !IsSpace(n[0]) && '=' !in n && ';' !in n
    requires ';' !in v && (|v| == 0 || !IsSpace(v[|v| - 1]))
    ensures CookieName(FlaggedHeader(n, v, s)) == n && CookieValue(FlaggedHeader(n, v, s)) == v
  {
    var attrs := " HttpOnly" + ";" + " Secure" + ";" + (" SameSite=" + s);
    assert FlaggedHeader(n, v, s) == n + "=" + v + ";" + attrs;
    CookieNameOf(n, v, attrs);
    CookieValueOf(n, v, attrs);
  }

  /** Only the last piece is a SameSite attribute, so it gives the value. */
  lemma FlaggedSameSite(n: string, v: string, s: string)
    requires ';' !in n && ';' !in v
    requires ';' !in s && |s| > 0 && !IsSpace(s[|s| - 1])
    requires !IsAttribute(n + "=" + v, "samesite=")
    ensures SameSite(FlaggedHeader(n, v, s)) == Title(Lower(s))
  {
    var parts := [n + "=" + v, " HttpOnly", " Secure", " SameSite=" + s];
    FlaggedPieces(n, v, s);
    assert FirstAttribute(parts, "samesite=", 0) == Some(3) by {
      HttpOnlyNotSameSite();
      SecureNotSameSite();
      SameSitePiece(s);
      FourthAttribute(parts, "samesite=");
    }
    SameSitePiece(s);
  }

  /** A header `<name>=<value>; HttpOnly; Secure; SameSite=<s>` sets one
      cookie `<name>` with value `<value>`, HttpOnly (so not accessible),
      Secure, and SameSite `s` lower-cased then title-cased. */
  lemma FlaggedCookie(n: string, v: string, s: string, host: string, path: string)
    requires |n| > 0 && !IsSpace(n[0]) && '=' !in n && ';' !in n
    requires ';' !in v && (|v| == 0 || !IsSpace(v[|v| - 1]))
    requires ';' !in s && |s| > 0 && !IsSpace(s[|s| - 1])
    requires !IsAttribute(n + "=" + v, "samesite=")
    ensures CookieNames([FlaggedHeader(n, v, s)]) == [n]
    ensures var d := CookieDetailOf(n, FlaggedHeader(n, v, s), host, path);
      d.name == n && d.value == v && d.httpOnly && !d.accessible && d.secure && d.sameSite == Title(Lower(s))
  {
    FlaggedPair(n, v, s);
    FlaggedWords(n, v, s);
    FlaggedSameSite(n, v, s);
  }

  /** An unpadded pair whose name differs from `prefix` in its second
      letter is not the attribute `prefix` names. */
  lemma PairNotAttribute(n: string, v: string, prefix: string)
    requires |n| >= 2 && !IsSpace(n[0]) && (|v| == 0 || !IsSpace(v[|v| - 1]))
    requires |prefix| >= 2 && LowerChar(n[1]) != prefix[1]
    ensures !IsAttribute(n + "=" + v, prefix)
  {
    var nv := n + "=" + v;
    assert nv[0] == n[0] && nv[1] == n[1];
    assert !IsSpace(nv[|nv| - 1]);
    StripUnpadded(nv);
    assert Lower(nv)[1] == LowerChar(n[1]);
  }

  /** The pair `sid=abc123` is no SameSite attribute. */
  lemma SidNotSameSite()
    ensures !IsAttribute("sid" + "=" + "abc123", "samesite=")
  {
    PairNotAttribute("sid", "abc123", "samesite=");
  }

  /** `Strict` keeps its spelling through lower-casing then title-casing. */
  lemma StrictTitle()
    ensures Title(Lower("Strict")) == "Strict"
  {
    assert Lower("Strict") == "strict";
  }

  /** `sid=abc123; HttpOnly; Secure; SameSite=Strict` sets the one cookie
      `sid` with value `abc123`, HttpOnly, Secure and SameSite `Strict`. */
  lemma SidCookie(host: string, path: string)
    ensures CookieNames([FlaggedHeader("sid", "abc123", "Strict")]) == ["sid"]
    ensures var d := CookieDetailOf("sid", FlaggedHeader("sid", "abc123", "Strict"), host, path);
      d.value == "abc123" && d.httpOnly && !d.accessible && d.secure && d.sameSite == "Strict"
  {
    SidNotSameSite();
    StrictTitle();
    FlaggedCookie("sid", "abc123", "Strict", host, path);
  }
}

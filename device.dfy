/** User-agent classification (src/utils/device.ts): keyword search in the lower-cased agent string. */
module Device {

  /** `toLowerCase` on one character; only A-Z are mapped. */
  function LowerChar(c: char): (r: char)
    ensures 'A' <= c <= 'Z' ==> r as int == c as int + 32
    ensures !('A' <= c <= 'Z') ==> r == c
    ensures !('A' <= r <= 'Z')
  {
    if 'A' <= c <= 'Z' then (c as int + 32) as char else c
  }

  function ToLower(s: string): (r: string)
    ensures |r| == |s|
    ensures forall i :: 0 <= i < |s| ==> r[i] == LowerChar(s[i])
  {
    seq(|s|, i requires 0 <= i < |s| => LowerChar(s[i]))
  }

  /** Lower-casing twice is lower-casing once. */
  lemma ToLowerIdempotent(s: string)
    ensures ToLower(ToLower(s)) == ToLower(s)
  {
  }

  /** `k` occurs in `s` starting at index `i`. */
  predicate OccursAt(s: string, k: string, i: int) {
    0 <= i && i + |k| <= |s| && s[i..i + |k|] == k
  }

  /** `s.includes(k)`, searched from the left. */
  function Includes(s: string, k: string): bool
    decreases |s|
  {
    if |k| <= |s| && s[..|k|] == k then true
    else if s == [] then false
    else Includes(s[1..], k)
  }

  /** The search finds `k` exactly when it occurs somewhere in `s`. */
  lemma {:induction false} IncludesIff(s: string, k: string)
    ensures Includes(s, k) <==> exists i :: OccursAt(s, k, i)
    decreases |s|
  {
    if |k| <= |s| && s[..|k|] == k {
      assert OccursAt(s, k, 0);
    } else if s == [] {
    } else {
      IncludesIff(s[1..], k);
      if Includes(s[1..], k) {
        var i :| OccursAt(s[1..], k, i);
        assert s[1..][i..i + |k|] == s[i + 1..i + 1 + |k|];
        assert OccursAt(s, k, i + 1);
      }
      if exists i :: OccursAt(s, k, i) {
        var i :| OccursAt(s, k, i);
        assert s[1..][i - 1..i - 1 + |k|] == s[i..i + |k|];
        assert OccursAt(s[1..], k, i - 1);
      }
    }
  }

  /** `keywords.some(k => s.includes(k))`. */
  function AnyIncluded(s: string, keywords: seq<string>): (r: bool)
    ensures r <==> exists j :: 0 <= j < |keywords| && Includes(s, keywords[j])
  {
    if keywords == [] then false
    else Includes(s, keywords[0]) || AnyIncluded(s, keywords[1..])
  }

  const MobileKeywords: seq<string> := ["iphone", "ipod", "android", "mobile", "phone", "tablet"]

  /** Some keyword occurs in `s` exactly when some keyword is included, counted by occurrence index. */
  lemma AnyIncludedIff(s: string, keywords: seq<string>)
    ensures AnyIncluded(s, keywords) <==> exists j, i :: 0 <= j < |keywords| && OccursAt(s, keywords[j], i)
  {
    forall j | 0 <= j < |keywords|
      ensures Includes(s, keywords[j]) <==> exists i :: OccursAt(s, keywords[j], i)
    {
      IncludesIff(s, keywords[j]);
    }
  }

  /** isMobileDevice: one of the six mobile keywords occurs in the lower-cased agent. */
  function IsMobileDevice(userAgent: string): (r: bool)
    ensures r <==> exists j, i :: 0 <= j < |MobileKeywords| && OccursAt(ToLower(userAgent), MobileKeywords[j], i)
  {
    AnyIncludedIff(ToLower(userAgent), MobileKeywords);
    AnyIncluded(ToLower(userAgent), MobileKeywords)
  }

  /** isSafariMobile: iphone, ipod or ipad occurs in the lower-cased agent. */
  function IsSafariMobile(userAgent: string): (r: bool)
    ensures r <==> exists i ::
      OccursAt(ToLower(userAgent), "iphone", i) || OccursAt(ToLower(userAgent), "ipod", i) || OccursAt(ToLower(userAgent), "ipad", i)
  {
    var ua := ToLower(userAgent);
    IncludesIff(ua, "iphone");
    IncludesIff(ua, "ipod");
    IncludesIff(ua, "ipad");
    Includes(ua, "iphone") || Includes(ua, "ipod") || Includes(ua, "ipad")
  }

  /** Neither check depends on letter case. */
  lemma CaseInsensitive(userAgent: string)
    ensures IsMobileDevice(ToLower(userAgent)) == IsMobileDevice(userAgent)
    ensures IsSafariMobile(ToLower(userAgent)) == IsSafariMobile(userAgent)
  {
    ToLowerIdempotent(userAgent);
  }

  /** An iPhone or iPod agent is both mobile and Safari-mobile. */
  lemma IphoneIsBoth(userAgent: string)
    requires Includes(ToLower(userAgent), "iphone") || Includes(ToLower(userAgent), "ipod")
    ensures IsMobileDevice(userAgent) && IsSafariMobile(userAgent)
  {
    var ua := ToLower(userAgent);
    if Includes(ua, "iphone") {
      assert Includes(ua, MobileKeywords[0]);
    } else {
      assert Includes(ua, MobileKeywords[1]);
    }
  }

  /** A keyword longer than the agent is never found. */
  lemma {:induction false} TooShort(s: string, k: string)
    requires |k| > |s|
    ensures !Includes(s, k)
    decreases |s|
  {
    if s != [] {
      TooShort(s[1..], k);
    }
  }

  /**
   * An agent is Safari-mobile but not mobile exactly when its lowered form
   * contains "ipad" and none of the mobile keywords (iphone and ipod are
   * keywords of both checks).
   */
  lemma SafariOnlyIffIpad(userAgent: string)
    ensures IsSafariMobile(userAgent) && !IsMobileDevice(userAgent) <==>
      Includes(ToLower(userAgent), "ipad") &&
      forall j :: 0 <= j < |MobileKeywords| ==> !Includes(ToLower(userAgent), MobileKeywords[j])
  {
    assert MobileKeywords[0] == "iphone" && MobileKeywords[1] == "ipod";
  }

  /** Such agents exist: the bare "iPad" agent is one. */
  lemma IpadAloneIsNotMobile()
    ensures IsSafariMobile("iPad")
    ensures !IsMobileDevice("iPad")
  {
    var ua := ToLower("iPad");
    assert ua == "ipad";
    assert Includes(ua, "ipad");
    forall j | 0 <= j < |MobileKeywords|
      ensures !Includes(ua, MobileKeywords[j])
    {
      if j == 1 {
        assert ua[..4][2] != MobileKeywords[1][2];
        TooShort(ua[1..], MobileKeywords[1]);
      } else {
        TooShort(ua, MobileKeywords[j]);
      }
    }
  }

  /** An empty agent string is neither. */
  lemma EmptyAgent()
    ensures !IsMobileDevice("") && !IsSafariMobile("")
  {
  }
}

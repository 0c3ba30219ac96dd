/**
 * The helpers shared by every component (utils.py): the exception classes with
 * their fields and string forms, site-code validation and the IP-list overlap test.
 */
module Utils {
  import opened Wrappers

  // ---------------------------------------------------------------------------
  // Decimal rendering (Python's str() of an int, used by the f-strings below)
  // ---------------------------------------------------------------------------

  predicate IsDigit(c: char) { '0' <= c <= '9' }

  function DigitChar(d: nat): (c: char)
    requires d < 10
    ensures IsDigit(c) && c as int - '0' as int == d
  {
    ('0' as int + d) as char
  }

  function DigitValue(c: char): (d: nat)
    requires IsDigit(c)
    ensures d < 10 && DigitChar(d) == c
  {
    (c as int - '0' as int) as nat
  }

  /** The decimal digits of n, most significant first, without leading zeros. */
  function NatToString(n: nat): (s: string)
    ensures |s| > 0
    ensures forall i :: 0 <= i < |s| ==> IsDigit(s[i])
    ensures n >= 10 ==> s[0] != '0'
    decreases n
  {
    if n < 10 then [DigitChar(n)] else NatToString(n / 10) + [DigitChar(n % 10)]
  }

  /** Python's str(i) for an int: a minus sign for negatives, then the digits. */
  function IntToString(i: int): (s: string)
    ensures |s| > 0
    ensures i >= 0 ==> s == NatToString(i)
    ensures i < 0 ==> s == "-" + NatToString(-i)
  {
    if i < 0 then "-" + NatToString(-i) else NatToString(i)
  }

  /** Reads a string of decimal digits back (int() restricted to digit strings). */
  function ParseNat(s: string): (n: nat)
    requires forall i :: 0 <= i < |s| ==> IsDigit(s[i])
    decreases |s|
  {
    if s == [] then 0 else 10 * ParseNat(s[..|s| - 1]) + DigitValue(s[|s| - 1])
  }

  /** The rendering of an int is what ParseInt accepts: an optional minus sign, then digits. */
  predicate IsIntString(s: string)
  {
    && |s| > 0
    && (s[0] == '-' ==> forall k :: 1 <= k < |s| ==> IsDigit(s[k]))
    && (s[0] != '-' ==> forall k :: 0 <= k < |s| ==> IsDigit(s[k]))
  }

  function ParseInt(s: string): int
    requires IsIntString(s)
  {
    if s[0] == '-' then -(ParseNat(s[1..]) as int) else ParseNat(s)
  }

  lemma {:induction false} ParseNatToString(n: nat)
    ensures ParseNat(NatToString(n)) == n
    decreases n
  {
    if n >= 10 {
      var q, r := n / 10, n % 10;
      var s := NatToString(n);
      assert s == NatToString(q) + [DigitChar(r)];
      assert s[..|s| - 1] == NatToString(q);
      assert DigitValue(s[|s| - 1]) == r;
      ParseNatToString(q);
    }
  }

  /** A string of digits is an int string, and reads back as its digits' value. */
  lemma DigitsAreIntString(s: string)
    requires |s| > 0 && forall k :: 0 <= k < |s| ==> IsDigit(s[k])
    ensures IsIntString(s) && ParseInt(s) == ParseNat(s)
  {
    assert s[0] != '-';
  }

  /** A minus sign before a string of digits is an int string, and reads back negated. */
  lemma NegativeIsIntString(digits: string)
    requires |digits| > 0 && forall k :: 0 <= k < |digits| ==> IsDigit(digits[k])
    ensures IsIntString("-" + digits) && ParseInt("-" + digits) == -(ParseNat(digits) as int)
  {
    var s := "-" + digits;
    assert s[1..] == digits;
    assert forall k :: 1 <= k < |s| ==> s[k] == digits[k - 1];
  }

  /** Rendering an int and reading it back gives the same int. */
  lemma IntToStringRoundTrip(i: int)
    ensures IsIntString(IntToString(i))
    ensures ParseInt(IntToString(i)) == i
  {
    if i < 0 {
      NegativeIsIntString(NatToString(-i));
      ParseNatToString(-i);
    } else {
      DigitsAreIntString(NatToString(i));
      ParseNatToString(i);
    }
  }

  // ---------------------------------------------------------------------------
  // Exceptions (utils.py:4-31)
  // ---------------------------------------------------------------------------

  /** What a SomethingBroke is about (its `broke_thing`): a text, a status code or a whole HTTP response. */
  datatype Thing =
    | Text(text: string)
    | Code(code: int)
    | HttpResponse(status: int)

  /** f"{broke_thing}": a text as itself, a code in decimal, a response by the requests library's repr. */
  function Render(t: Thing): string
  {
    match t
    case Text(s) => s
    case Code(c) => IntToString(c)
    case HttpResponse(status) => "<Response [" + IntToString(status) + "]>"
  }

  const Arrow := " -> "

  /**
   * The exception hierarchy: SiteCodeError and StatusCodeError are SomethingBroke
   * whose `broke_thing` is the site code, respectively the status code.
   * Constructor defaults are the source's default messages.
   */
  datatype Exception =
    | SomethingBroke(brokeThing: Thing, message: string := "Something Broke")
    | SiteCodeError(siteCode: string, message: string := "Site code is not valid.")
    | StatusCodeError(statusCode: int, message: string := "HTTP status code indicates API error")
  {
    /** The `broke_thing` attribute that SomethingBroke.__init__ stores. */
    function BrokeThing(): Thing
    {
      match this
      case SomethingBroke(t, _) => t
      case SiteCodeError(c, _) => Text(c)
      case StatusCodeError(s, _) => Code(s)
    }

    /** __str__: f"{self.broke_thing} -> {self.message}". */
    function ToString(): (s: string)
      ensures s == Render(BrokeThing()) + Arrow + message
      ensures SiteCodeError? ==> s == siteCode + Arrow + message
      ensures StatusCodeError? ==> s == IntToString(statusCode) + Arrow + message
    {
      Render(BrokeThing()) + Arrow + message
    }
  }

  /** Whether an arrow starts at position j of s. */
  predicate ArrowAt(s: string, j: nat)
  {
    j + |Arrow| <= |s| && s[j..j + |Arrow|] == Arrow
  }

  /** The index of the first " -> " in s, if any. */
  function FindArrow(s: string): (k: Option<nat>)
    ensures k.Some? ==> ArrowAt(s, k.value)
    ensures k.Some? ==> forall j: nat :: j < k.value ==> !ArrowAt(s, j)
    ensures k.None? ==> forall j: nat :: !ArrowAt(s, j)
    decreases |s|
  {
    if |s| < |Arrow| then None
    else if s[..|Arrow|] == Arrow then Some(0)
    else
      assert !ArrowAt(s, 0) by { assert s[0..|Arrow|] == s[..|Arrow|]; }
      assert forall j: nat | 1 <= j :: ArrowAt(s, j) <==> ArrowAt(s[1..], j - 1) by {
        forall j: nat | 1 <= j ensures ArrowAt(s, j) <==> ArrowAt(s[1..], j - 1) {
          if j + |Arrow| <= |s| { assert s[1..][j - 1..j - 1 + |Arrow|] == s[j..j + |Arrow|]; }
        }
      }
      match FindArrow(s[1..])
      case None => None
      case Some(k) => Some(k + 1)
  }

  /** Splits an exception's string form at its first arrow into the thing and the message. */
  function SplitAtArrow(s: string): Option<(string, string)>
  {
    match FindArrow(s)
    case None => None
    case Some(k) => Some((s[..k], s[k + |Arrow|..]))
  }

  lemma {:induction false} FindArrowAfterSpaceless(p: string, m: string)
    requires forall i :: 0 <= i < |p| ==> p[i] != ' '
    ensures FindArrow(p + Arrow + m) == Some(|p|)
    decreases |p|
  {
    var s := p + Arrow + m;
    if p == [] {
      assert s[..|Arrow|] == Arrow;
    } else {
      assert s[0] == p[0] && s[..|Arrow|][0] != Arrow[0];
      assert s[1..] == p[1..] + Arrow + m;
      FindArrowAfterSpaceless(p[1..], m);
    }
  }

  /** The string form of a StatusCodeError splits back into its status code and its message. */
  lemma StatusCodeErrorRoundTrip(code: int, message: string)
    ensures match SplitAtArrow(StatusCodeError(code, message).ToString())
      case Some((t, m)) =>
        |t| > 0 && (t[0] == '-' ==> forall k :: 1 <= k < |t| ==> IsDigit(t[k]))
        && (t[0] != '-' ==> forall k :: 0 <= k < |t| ==> IsDigit(t[k]))
        && ParseInt(t) == code && m == message
      case None => false
  {
    var t := IntToString(code);
    IntToStringRoundTrip(code);
    assert forall i :: 0 <= i < |t| ==> t[i] != ' ' by {
      forall i | 0 <= i < |t| ensures t[i] != ' ' {
        if code < 0 && i > 0 { assert t[i] == NatToString(-code)[i - 1]; }
      }
    }
    FindArrowAfterSpaceless(t, message);
    var s := t + Arrow + message;
    assert s[..|t|] == t;
    assert s[|t| + |Arrow|..] == message;
  }

  /**
   * The string form of a SiteCodeError splits back into the code and the
   * message for any site code without spaces, the invalid ones it reports
   * included.
   */
  lemma SiteCodeErrorRoundTrip(siteCode: string, message: string)
    requires forall i :: 0 <= i < |siteCode| ==> siteCode[i] != ' '
    ensures SplitAtArrow(SiteCodeError(siteCode, message).ToString()) == Some((siteCode, message))
  {
    FindArrowAfterSpaceless(siteCode, message);
    var s := siteCode + Arrow + message;
    assert s[..|siteCode|] == siteCode;
    assert s[|siteCode| + |Arrow|..] == message;
  }

  // ---------------------------------------------------------------------------
  // Site codes (utils.py:43-48)
  // ---------------------------------------------------------------------------

  /** str.isalpha() on one character, restricted to ASCII letters. */
  predicate IsAlpha(c: char) { 'A' <= c <= 'Z' || 'a' <= c <= 'z' }

  /** str.isalpha(): the string is non-empty and every character is alphabetic. */
  function IsAlphaString(s: string): (b: bool)
    ensures b <==> |s| > 0 && forall i :: 0 <= i < |s| ==> IsAlpha(s[i])
    decreases |s|
  {
    if |s| == 0 then false
    else if |s| == 1 then IsAlpha(s[0])
    else IsAlpha(s[0]) && IsAlphaString(s[1..])
  }

  /** validate_site_code: True exactly for five alphabetic characters; never raises. */
  function ValidateSiteCode(siteCode: string): (valid: bool)
    ensures valid <==> |siteCode| == 5 && forall i :: 0 <= i < |siteCode| ==> IsAlpha(siteCode[i])
    ensures valid ==> forall i :: 0 <= i < |siteCode| ==> siteCode[i] != ' '
  {
    IsAlphaString(siteCode) && |siteCode| == 5
  }

  // ---------------------------------------------------------------------------
  // IP overlap (utils.py:34-40)
  // ---------------------------------------------------------------------------

  /** check_ip_overlap: is the intersection of the two lists, taken as sets, non-empty? */
  function CheckIpOverlap(networkGroupIps: seq<string>, diaIps: seq<string>): (overlap: bool)
    ensures overlap <==> exists ip :: ip in networkGroupIps && ip in diaIps
  {
    var groupSet := set ip | ip in networkGroupIps;
    var diaSet := set ip | ip in diaIps;
    var common := groupSet * diaSet;
    assert forall ip :: ip in common <==> ip in networkGroupIps && ip in diaIps;
    common != {}
  }

  lemma CheckIpOverlapSymmetric(a: seq<string>, b: seq<string>)
    ensures CheckIpOverlap(a, b) == CheckIpOverlap(b, a)
  {
  }

  /** Only which addresses occur matters, not their order or how often they occur. */
  lemma CheckIpOverlapOnSets(a: seq<string>, a': seq<string>, b: seq<string>, b': seq<string>)
    requires forall ip :: ip in a <==> ip in a'
    requires forall ip :: ip in b <==> ip in b'
    ensures CheckIpOverlap(a, b) == CheckIpOverlap(a', b')
  {
  }

  lemma CheckIpOverlapEmpty(a: seq<string>)
    ensures !CheckIpOverlap(a, []) && !CheckIpOverlap([], a)
  {
  }
}

/** The input patterns used by the vendor route and the staff form:
  * `/^[0-9]{10}$/` for mobile numbers, `/^[^\s@]+@[^\s@]+\.[^\s@]+$/` for
  * e-mail addresses, and the staff form's mobile input filter. */
module Formats {

  import opened Text

  /** `/^[0-9]{10}$/.test(s)`: exactly ten characters, each `0`..`9`. */
  predicate IsMobile(s: string)
  {
    |s| == 10 && forall i :: 0 <= i < |s| ==> IsDigit(s[i])
  }

  /** A character of the class `[^\s@]`. */
  predicate EmailChar(c: char)
  {
    c != '@' && !IsSpace(c)
  }

  /** `s` matches `[^\s@]*`. */
  predicate EmailChars(s: string)
  {
    forall i :: 0 <= i < |s| ==> EmailChar(s[i])
  }

  /** The e-mail pattern matches `s` with its `@` at index `at` and its
    * `\.` at index `dot`: three non-empty runs of `[^\s@]` around them. */
  predicate EmailSplit(s: string, at: int, dot: int)
  {
    0 < at && at + 1 < dot && dot + 1 < |s| && s[at] == '@' && s[dot] == '.'
    && EmailChars(s[..at]) && EmailChars(s[at + 1..dot]) && EmailChars(s[dot + 1..])
  }

  /** `/^[^\s@]+@[^\s@]+\.[^\s@]+$/.test(s)`: a match has an `@` after its
    * first character and is at least as long as `a@b.c`. */
  predicate IsEmail(s: string)
    ensures IsEmail(s) ==> 5 <= |s| && '@' in s[1..]
  {
    exists at, dot | 0 <= at < |s| && 0 <= dot < |s| :: EmailSplit(s, at, dot)
  }

  /** Index of the first `c` in `s`, or `|s|` when there is none. */
  function IndexOf(s: string, c: char): (k: nat)
    ensures k <= |s|
    ensures k < |s| ==> s[k] == c
    ensures forall i :: 0 <= i < k ==> s[i] != c
  {
    if s == [] then 0
    else if s[0] == c then 0
    else 1 + IndexOf(s[1..], c)
  }

  /** `d` has a `.` with at least one character on each side. */
  predicate HasInnerDot(d: string)
  {
    exists j :: 0 < j < |d| - 1 && d[j] == '.'
  }

  /** The e-mail rule in plain words: no white space, exactly one `@`, a
    * non-empty part before it, and a `.` inside the part after it. */
  ghost predicate EmailShape(s: string)
  {
    && (forall i :: 0 <= i < |s| ==> !IsSpace(s[i]))
    && multiset(s)['@'] == 1
    && 0 < IndexOf(s, '@') < |s|
    && HasInnerDot(s[IndexOf(s, '@') + 1..])
  }

  /** The regular expression accepts exactly the strings of that shape. */
  lemma EmailPatternIffShape(s: string)
    ensures IsEmail(s) <==> EmailShape(s)
  {
    if IsEmail(s) {
      var at, dot :| 0 <= at < |s| && 0 <= dot < |s| && EmailSplit(s, at, dot);
      EmailSplitIsShape(s, at, dot);
    }
    if EmailShape(s) {
      ShapeHasSplit(s);
    }
  }

  lemma EmailSplitIsShape(s: string, at: int, dot: int)
    requires EmailSplit(s, at, dot)
    ensures EmailShape(s)
  {
    var pre, mid, post := s[..at], s[at + 1..dot], s[dot + 1..];
    assert s == pre + ['@'] + mid + ['.'] + post;
    forall i | 0 <= i < |s| ensures !IsSpace(s[i]) {
      if i < at {
        assert s[i] == pre[i];
      } else if at < i < dot {
        assert s[i] == mid[i - at - 1];
      } else if dot < i {
        assert s[i] == post[i - dot - 1];
      }
    }
    assert '@' !in pre;
    assert '@' !in mid;
    assert '@' !in post;
    assert multiset(s) == multiset(pre) + multiset{'@'} + multiset(mid) + multiset{'.'} + multiset(post);
    var k := IndexOf(s, '@');
    assert k == at;
    var d := s[at + 1..];
    assert d[dot - at - 1] == '.';
  }

  lemma ShapeHasSplit(s: string)
    requires EmailShape(s)
    ensures IsEmail(s)
  {
    var at := IndexOf(s, '@');
    var d := s[at + 1..];
    var j :| 0 < j < |d| - 1 && d[j] == '.';
    var dot := at + 1 + j;
    assert s == s[..at] + [s[at]] + d;
    assert multiset(s) == multiset(s[..at]) + multiset{'@'} + multiset(d);
    assert '@' !in s[..at];
    assert multiset(d)['@'] == 0;
    assert '@' !in d;
    var pre, mid, post := s[..at], s[at + 1..dot], s[dot + 1..];
    forall i | 0 <= i < |pre| ensures EmailChar(pre[i]) {
      assert pre[i] == s[i];
    }
    forall i | 0 <= i < |mid| ensures EmailChar(mid[i]) {
      assert mid[i] == d[i];
      assert d[i] == s[at + 1 + i];
    }
    forall i | 0 <= i < |post| ensures EmailChar(post[i]) {
      var k := j + 1 + i;
      assert 0 <= k < |d|;
      assert post[i] == s[dot + 1 + i];
      assert d[k] == s[at + 1 + k];
      assert at + 1 + k == dot + 1 + i;
      assert d[k] != '@' && !IsSpace(s[dot + 1 + i]);
    }
    assert EmailSplit(s, at, dot);
  }

  /** `s.replace(/[^0-9]/g, '')`: the digits of `s`, in order. */
  function DigitsOf(s: string): (r: string)
    ensures |r| <= |s|
    ensures forall i :: 0 <= i < |r| ==> IsDigit(r[i])
    ensures forall c :: c in r ==> c in s
    ensures |s| == 1 ==> r == if IsDigit(s[0]) then s else []
  {
    if s == [] then []
    else (if IsDigit(s[0]) then [s[0]] else []) + DigitsOf(s[1..])
  }

  /** The staff form's mobile input handler: `replace(/[^0-9]/g, '').slice(0, 10)`. */
  function SanitizeMobile(s: string): (r: string)
    ensures |r| <= 10
    ensures forall i :: 0 <= i < |r| ==> IsDigit(r[i])
    // The first ten digits of the input, in order, or all of them when there are fewer.
    ensures |r| == if |DigitsOf(s)| < 10 then |DigitsOf(s)| else 10
    ensures r <= DigitsOf(s)
  {
    var d := DigitsOf(s);
    d[..if |d| < 10 then |d| else 10]
  }

  /** The filter works character by character: filtering a concatenation
    * concatenates the filtered parts, so the digits keep their order. */
  lemma {:induction false} DigitsOfConcat(a: string, b: string)
    ensures DigitsOf(a + b) == DigitsOf(a) + DigitsOf(b)
  {
    if a != [] {
      DigitsOfConcat(a[1..], b);
      assert (a + b)[1..] == a[1..] + b;
    } else {
      assert a + b == b;
    }
  }

  /** A string of digits passes through the filter unchanged. */
  lemma {:induction false} DigitsOfAllDigits(s: string)
    requires forall i :: 0 <= i < |s| ==> IsDigit(s[i])
    ensures DigitsOf(s) == s
  {
    if s != [] {
      DigitsOfAllDigits(s[1..]);
      assert [s[0]] + s[1..] == s;
    }
  }

  /** A valid mobile number is ten characters that the digit filter keeps, all of them. */
  lemma MobileIffDigitsKept(s: string)
    ensures IsMobile(s) <==> |s| == 10 && DigitsOf(s) == s
  {
    if forall i :: 0 <= i < |s| ==> IsDigit(s[i]) {
      DigitsOfAllDigits(s);
    }
  }

  /** The filtered input is a valid mobile number exactly when the typed
    * text held at least ten digits. */
  lemma SanitizedMobileValid(s: string)
    ensures IsMobile(SanitizeMobile(s)) <==> |DigitsOf(s)| >= 10
  {
  }

  /** Filtering an already filtered input changes nothing, and a valid
    * mobile number is kept as it is. */
  lemma SanitizeMobileIdempotent(s: string)
    ensures SanitizeMobile(SanitizeMobile(s)) == SanitizeMobile(s)
    ensures IsMobile(s) ==> SanitizeMobile(s) == s
  {
    DigitsOfAllDigits(SanitizeMobile(s));
    if IsMobile(s) {
      DigitsOfAllDigits(s);
    }
  }
}

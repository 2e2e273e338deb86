/** The few functions of Go's `strings` package that the core relies on, over `seq<char>`. */
module Strings {
  import opened Errors

  /** unicode.IsSpace: the ASCII white space, NEL, NO-BREAK SPACE and the Unicode space separators. */
  predicate IsSpace(c: char)
  {
    c == ' ' || c == '\t' || c == '\n' || c == '\r' || c == '\U{000B}' || c == '\U{000C}'
    || c == '\U{0085}' || c == '\U{00A0}' || c == '\U{1680}'
    || ('\U{2000}' <= c <= '\U{200A}')
    || c == '\U{2028}' || c == '\U{2029}' || c == '\U{202F}' || c == '\U{205F}' || c == '\U{3000}'
  }

  /** Drops the white space at the front of `s`. */
  function TrimLeftSpace(s: string): (r: string)
    ensures |r| <= |s| && r == s[|s| - |r|..]
    ensures forall i :: 0 <= i < |s| - |r| ==> IsSpace(s[i])
    ensures r == [] || !IsSpace(r[0])
  {
    if s != [] && IsSpace(s[0]) then TrimLeftSpace(s[1..]) else s
  }

  /** Drops the white space at the end of `s`. */
  function TrimRightSpace(s: string): (r: string)
    ensures |r| <= |s| && r == s[..|r|]
    ensures forall i :: |r| <= i < |s| ==> IsSpace(s[i])
    ensures r == [] || !IsSpace(r[|r| - 1])
  {
    if s != [] && IsSpace(s[|s| - 1]) then TrimRightSpace(s[..|s| - 1]) else s
  }

  /** strings.TrimSpace: `s` without its leading and trailing white space. */
  function TrimSpace(s: string): (r: string)
    ensures |r| <= |s|
    ensures r == [] || (!IsSpace(r[0]) && !IsSpace(r[|r| - 1]))
  {
    var l := TrimLeftSpace(s);
    var r := TrimRightSpace(l);
    assert r != [] ==> r[0] == l[0];
    r
  }

  /** TrimSpace removes nothing from a text that it has already trimmed. */
  lemma TrimSpaceIdempotent(s: string)
    ensures TrimSpace(TrimSpace(s)) == TrimSpace(s)
  {
    var r := TrimSpace(s);
    assert TrimLeftSpace(r) == r;
    assert TrimRightSpace(r) == r;
  }

  predicate HasPrefix(s: string, prefix: string)
  {
    |prefix| <= |s| && s[..|prefix|] == prefix
  }

  predicate HasSuffix(s: string, suffix: string)
  {
    |suffix| <= |s| && s[|s| - |suffix|..] == suffix
  }

  /** strings.TrimPrefix: removes `prefix` once, if `s` starts with it. */
  function TrimPrefix(s: string, prefix: string): (r: string)
    ensures HasPrefix(s, prefix) ==> s == prefix + r
    ensures !HasPrefix(s, prefix) ==> r == s
  {
    if HasPrefix(s, prefix) then s[|prefix|..] else s
  }

  /** strings.TrimSuffix: removes `suffix` once, if `s` ends with it. */
  function TrimSuffix(s: string, suffix: string): (r: string)
    ensures HasSuffix(s, suffix) ==> s == r + suffix
    ensures !HasSuffix(s, suffix) ==> r == s
  {
    if HasSuffix(s, suffix) then s[..|s| - |suffix|] else s
  }

  /** strings.Split(s, "\n")[0]: the text before the first newline (all of `s` when it has none).
      Split never returns an empty slice, so this element always exists. */
  function FirstLine(s: string): (r: string)
    ensures |r| <= |s| && r == s[..|r|]
    ensures '\n' !in r
    ensures |r| < |s| ==> s[|r|] == '\n'
  {
    if s == [] || s[0] == '\n' then [] else [s[0]] + FirstLine(s[1..])
  }

  /** `pattern` occurs somewhere in `s`. */
  ghost predicate Occurs(s: string, pattern: string)
  {
    exists i :: OccursAt(s, pattern, i)
  }

  /** `pattern` occurs in `s` starting at index `i`. */
  predicate OccursAt(s: string, pattern: string, i: int)
  {
    0 <= i <= |s| - |pattern| && s[i..i + |pattern|] == pattern
  }

  /** strings.ReplaceAll for a non-empty pattern: scans left to right and replaces every
      non-overlapping occurrence of `pattern` by `by`. */
  function ReplaceAll(s: string, pattern: string, repl: string): string
    requires pattern != []
    decreases |s|
  {
    if |s| < |pattern| then s
    else if s[..|pattern|] == pattern then repl + ReplaceAll(s[|pattern|..], pattern, repl)
    else [s[0]] + ReplaceAll(s[1..], pattern, repl)
  }

  /** A text without the pattern comes back unchanged. */
  lemma {:induction false} ReplaceAllAbsent(s: string, pattern: string, repl: string)
    requires pattern != []
    requires !Occurs(s, pattern)
    ensures ReplaceAll(s, pattern, repl) == s
    decreases |s|
  {
    if |s| >= |pattern| {
      assert s[0..|pattern|] == s[..|pattern|];
      assert !OccursAt(s, pattern, 0);
      assert !Occurs(s[1..], pattern) by {
        forall i | OccursAt(s[1..], pattern, i) ensures OccursAt(s, pattern, i + 1) {
          assert s[1..][i..i + |pattern|] == s[i + 1..i + 1 + |pattern|];
        }
      }
      ReplaceAllAbsent(s[1..], pattern, repl);
    }
  }

  /** A pattern cannot occur in a text that lacks its first character. */
  lemma FirstCharAbsent(s: string, pattern: string)
    requires pattern != [] && pattern[0] !in s
    ensures !Occurs(s, pattern)
  {
  }

  /** When the text before an occurrence lacks the pattern's first character, that occurrence is
      the first one the scan meets. */
  lemma NoEarlierOccurrence(a: string, pattern: string)
    requires pattern != [] && pattern[0] !in a
    ensures !Occurs(a + pattern[..|pattern| - 1], pattern)
  {
    var s := a + pattern[..|pattern| - 1];
    forall i | OccursAt(s, pattern, i) ensures i < |a| && a[i] == pattern[0] {
      assert s[i] == s[i..i + |pattern|][0];
    }
  }

  /** A text without the pattern has none after its first character either. */
  lemma NoOccurrenceInTail(s: string, pattern: string)
    requires s != [] && !Occurs(s, pattern)
    ensures !Occurs(s[1..], pattern)
  {
    forall i | OccursAt(s[1..], pattern, i) ensures OccursAt(s, pattern, i + 1) {
      assert s[1..][i..i + |pattern|] == s[i + 1..i + 1 + |pattern|];
    }
  }

  /** ReplaceAll reaches the first occurrence with the text before it untouched, puts the
      replacement there and carries on after it. */
  lemma {:induction false} ReplaceAllSplice(a: string, pattern: string, b: string, repl: string)
    requires pattern != []
    requires !Occurs(a + pattern[..|pattern| - 1], pattern)
    ensures ReplaceAll(a + pattern + b, pattern, repl) == a + repl + ReplaceAll(b, pattern, repl)
    decreases |a|
  {
    var s := a + pattern + b;
    if a == [] {
      assert s[..|pattern|] == pattern;
      assert s[|pattern|..] == b;
    } else {
      assert s[..|pattern|] != pattern by {
        var early := a + pattern[..|pattern| - 1];
        assert s[..|pattern|] == early[0..|pattern|];
        assert !OccursAt(early, pattern, 0);
      }
      assert !Occurs(a[1..] + pattern[..|pattern| - 1], pattern) by {
        var early := a + pattern[..|pattern| - 1];
        NoOccurrenceInTail(early, pattern);
        assert early[1..] == a[1..] + pattern[..|pattern| - 1];
      }
      calc {
        ReplaceAll(s, pattern, repl);
        [s[0]] + ReplaceAll(s[1..], pattern, repl);
        { assert s[1..] == a[1..] + pattern + b; }
        [a[0]] + ReplaceAll(a[1..] + pattern + b, pattern, repl);
        { ReplaceAllSplice(a[1..], pattern, b, repl); }
        [a[0]] + (a[1..] + repl + ReplaceAll(b, pattern, repl));
        { assert a == [a[0]] + a[1..]; }
        a + repl + ReplaceAll(b, pattern, repl);
      }
    }
  }

  /** Replacing the pattern by itself is the identity. */
  lemma {:induction false} ReplaceAllSelf(s: string, pattern: string)
    requires pattern != []
    ensures ReplaceAll(s, pattern, pattern) == s
    decreases |s|
  {
    if |s| >= |pattern| {
      if s[..|pattern|] == pattern {
        ReplaceAllSelf(s[|pattern|..], pattern);
        assert s == s[..|pattern|] + s[|pattern|..];
      } else {
        ReplaceAllSelf(s[1..], pattern);
        assert s == [s[0]] + s[1..];
      }
    }
  }

  /** The decimal digit `d`. */
  function DigitChar(d: nat): char
    requires d < 10
  {
    ('0' as int + d) as char
  }

  predicate IsDigit(c: char)
  {
    '0' <= c <= '9'
  }

  /** strconv.Itoa for a non-negative number: its decimal digits, without leading zeros. */
  function NatToString(n: nat): (r: string)
    ensures r != [] && forall i :: 0 <= i < |r| ==> IsDigit(r[i])
    ensures |r| > 1 ==> r[0] != '0'
    decreases n
  {
    if n < 10 then [DigitChar(n)] else NatToString(n / 10) + [DigitChar(n % 10)]
  }

  /** strconv.Itoa: the decimal digits of the number, after a minus sign when it is negative;
      reading the digits back gives its magnitude. */
  function IntToString(n: int): (r: string)
    ensures n >= 0 ==> (forall i :: 0 <= i < |r| ==> IsDigit(r[i])) && ParseDigits(r) == n
    ensures n < 0 ==> |r| >= 2 && r[0] == '-' && (forall i :: 1 <= i < |r| ==> IsDigit(r[i])) && ParseDigits(r[1..]) == -n
  {
    if n < 0 then
      NatToStringRoundTrip(-n);
      var r := "-" + NatToString(-n);
      assert r[1..] == NatToString(-n);
      r
    else
      NatToStringRoundTrip(n);
      NatToString(n)
  }

  /** The value of a string of decimal digits (strconv.Atoi on digits only). */
  function ParseDigits(s: string): nat
    requires forall i :: 0 <= i < |s| ==> IsDigit(s[i])
  {
    if s == [] then 0
    else
      assert IsDigit(s[|s| - 1]);
      ParseDigits(s[..|s| - 1]) * 10 + (s[|s| - 1] as int - '0' as int)
  }

  /** Reading back the digits written by NatToString gives the number: the thread count passed
      on a command line is the configured one. */
  lemma {:induction false} NatToStringRoundTrip(n: nat)
    ensures ParseDigits(NatToString(n)) == n
    decreases n
  {
    if n >= 10 {
      var prefix := NatToString(n / 10);
      var s := prefix + [DigitChar(n % 10)];
      assert s[..|s| - 1] == prefix;
      NatToStringRoundTrip(n / 10);
    }
  }

  /** strconv.Atoi on an optional minus sign followed by decimal digits. */
  function ParseInt(s: string): Option<int>
  {
    if s != [] && s[0] == '-' && |s| >= 2 && forall i :: 1 <= i < |s| ==> IsDigit(s[i]) then Some(0 - ParseDigits(s[1..]) as int)
    else if s != [] && forall i :: 0 <= i < |s| ==> IsDigit(s[i]) then Some(ParseDigits(s))
    else None
  }

  /** strconv.Atoi reads back what strconv.Itoa wrote, for every int. */
  lemma IntToStringRoundTrip(n: int)
    ensures ParseInt(IntToString(n)) == Some(n)
  {
    var r := IntToString(n);
    if n < 0 {
      assert r[0] == '-' && !IsDigit(r[0]);
    }
  }
}

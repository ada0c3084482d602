/** The JavaScript string operations the chatbot relies on, with the semantics ECMAScript gives them:
    `trim`, the `\s` class, `includes`, `indexOf`, `replace` with a string pattern (first occurrence
    only, `$` substitution patterns in the replacement), `join`, and integer-to-decimal conversion. */
module JsText {
  import opened Wrappers

  /** The line terminators of ECMAScript (what `.` in a regular expression does not match). */
  predicate IsLineTerminator(c: char)
  {
    c == '\n' || c == '\r' || c == '\U{2028}' || c == '\U{2029}'
  }

  /** The WhiteSpace code points of ECMAScript: tab, vertical tab, form feed, space, no-break
      space, the byte order mark and the space separators of Unicode. */
  const WhiteSpaceChars: set<char> := {
    '\t', '\U{000B}', '\U{000C}', ' ', '\U{00A0}', '\U{1680}',
    '\U{2000}', '\U{2001}', '\U{2002}', '\U{2003}', '\U{2004}', '\U{2005}',
    '\U{2006}', '\U{2007}', '\U{2008}', '\U{2009}', '\U{200A}',
    '\U{202F}', '\U{205F}', '\U{3000}', '\U{FEFF}'
  }

  /** WhiteSpace or LineTerminator: what `\s` matches and what `String.prototype.trim` strips. */
  predicate IsSpace(c: char)
  {
    IsLineTerminator(c) || c in WhiteSpaceChars
  }

  predicate AllSpaces(s: string)
  {
    forall k :: 0 <= k < |s| ==> IsSpace(s[k])
  }

  // ---------------------------------------------------------------- trim

  /** Drops leading white space; what is left is a suffix of `s`. */
  function TrimStart(s: string): (r: string)
    ensures |r| <= |s| && r == s[|s| - |r|..]
    ensures forall k :: 0 <= k < |s| - |r| ==> IsSpace(s[k])
    ensures r != [] ==> !IsSpace(r[0])
    decreases |s|
  {
    if |s| > 0 && IsSpace(s[0]) then
      var r := TrimStart(s[1..]);
      assert forall k :: 1 <= k < |s| - |r| ==> s[k] == s[1..][k - 1];
      r
    else
      s
  }

  /** Drops trailing white space; what is left is a prefix of `s`. */
  function TrimEnd(s: string): (r: string)
    ensures |r| <= |s| && r == s[..|r|]
    ensures forall k :: |r| <= k < |s| ==> IsSpace(s[k])
    ensures r != [] ==> !IsSpace(r[|r| - 1])
    decreases |s|
  {
    if |s| > 0 && IsSpace(s[|s| - 1]) then
      var r := TrimEnd(s[..|s| - 1]);
      assert forall k :: |r| <= k < |s| - 1 ==> s[k] == s[..|s| - 1][k];
      r
    else
      s
  }

  /** `String.prototype.trim`: the piece of `s` left when white space is cut from both ends. */
  function Trim(s: string): (r: string)
    ensures r != [] ==> !IsSpace(r[0]) && !IsSpace(r[|r| - 1])
  {
    TrimEnd(TrimStart(s))
  }

  /** `trim` leaves nothing exactly when the string is all white space. */
  lemma TrimBlank(s: string)
    ensures Trim(s) == [] <==> AllSpaces(s)
  {
    var t := TrimStart(s);
    var a := |s| - |t|;
    if Trim(s) == [] {
      forall k | a <= k < |s| ensures IsSpace(s[k]) {
        assert s[k] == t[k - a];
      }
    } else {
      assert s[a] == t[0] == Trim(s)[0];
    }
  }

  /** What `trim` keeps is a contiguous piece of `s` with only white space around it. */
  lemma TrimIsSlice(s: string)
    ensures var a, r := |s| - |TrimStart(s)|, Trim(s);
              && a + |r| <= |s| && r == s[a..a + |r|]
              && (forall k :: 0 <= k < a ==> IsSpace(s[k]))
              && (forall k :: a + |r| <= k < |s| ==> IsSpace(s[k]))
  {
    var t := TrimStart(s);
    var a, r := |s| - |t|, TrimEnd(t);
    SliceOfSuffix(s, a, |r|);
    SpacesOfSuffix(s, a, |r|);
  }

  lemma SliceOfSuffix(s: string, a: nat, n: nat)
    requires a + n <= |s|
    ensures s[a..][..n] == s[a..a + n]
  {
  }

  lemma SpacesOfSuffix(s: string, a: nat, n: nat)
    requires a + n <= |s|
    requires forall k :: n <= k < |s[a..]| ==> IsSpace(s[a..][k])
    ensures forall k :: a + n <= k < |s| ==> IsSpace(s[k])
  {
    forall k | a + n <= k < |s| ensures IsSpace(s[k]) {
      assert s[k] == s[a..][k - a];
    }
  }




  /** A string with no white space at either end is its own trim: trimming is idempotent. */
  lemma TrimOfTrimmed(s: string)
    requires s != [] ==> !IsSpace(s[0]) && !IsSpace(s[|s| - 1])
    ensures Trim(s) == s
  {
  }

  lemma TrimIdempotent(s: string)
    ensures Trim(Trim(s)) == Trim(s)
  {
    TrimOfTrimmed(Trim(s));
  }

  // ---------------------------------------------------------------- case mapping (ASCII only)

  function LowerChar(c: char): char
  {
    if 'A' <= c <= 'Z' then (c as int + 32) as char else c
  }

  function UpperChar(c: char): char
  {
    if 'a' <= c <= 'z' then (c as int - 32) as char else c
  }

  /** `String.prototype.toLowerCase`, restricted to the ASCII letters. */
  function ToLowerCase(s: string): string
  {
    seq(|s|, k requires 0 <= k < |s| => LowerChar(s[k]))
  }

  /** `String.prototype.length`: a character beyond the Basic Multilingual Plane is a surrogate
      pair, two UTF-16 code units. */
  function Utf16Length(s: string): (n: nat)
    ensures |s| <= n <= 2 * |s|
    ensures (forall k :: 0 <= k < |s| ==> s[k] as int < 0x1_0000) ==> n == |s|
    decreases |s|
  {
    if s == [] then 0 else (if s[0] as int < 0x1_0000 then 1 else 2) + Utf16Length(s[1..])
  }

  /** A text made only of characters beyond that plane has two code units per character. */
  lemma {:induction false} AstralLength(s: string)
    requires forall k :: 0 <= k < |s| ==> s[k] as int >= 0x1_0000
    ensures Utf16Length(s) == 2 * |s|
    decreases |s|
  {
    if s != [] {
      AstralLength(s[1..]);
    }
  }

  /** `String.prototype.toUpperCase`, restricted to the ASCII letters. */
  function ToUpperCase(s: string): string
  {
    seq(|s|, k requires 0 <= k < |s| => UpperChar(s[k]))
  }

  predicate HasNoLowerAscii(s: string)
  {
    forall k :: 0 <= k < |s| ==> !('a' <= s[k] <= 'z')
  }

  predicate HasNoUpperAscii(s: string)
  {
    forall k :: 0 <= k < |s| ==> !('A' <= s[k] <= 'Z')
  }

  /** A string without upper-case ASCII letters is its own lower case. */
  lemma LowerCaseOfLower(s: string)
    requires HasNoUpperAscii(s)
    ensures ToLowerCase(s) == s
  {
  }

  /** Upper-casing leaves white space where it was and leaves no lower-case letter behind. */
  lemma UpperCaseKeepsSpaces(s: string)
    ensures |ToUpperCase(s)| == |s|
    ensures forall k :: 0 <= k < |s| ==> (IsSpace(ToUpperCase(s)[k]) <==> IsSpace(s[k]))
    ensures HasNoLowerAscii(ToUpperCase(s))
  {
  }

  /** A string without lower-case ASCII letters is its own upper case. */
  lemma UpperCaseOfUpper(s: string)
    requires HasNoLowerAscii(s)
    ensures ToUpperCase(s) == s
  {
  }

  // ---------------------------------------------------------------- removing characters

  /** What `s.replace(/x+/g, '')` leaves for a character class x: every character `drop` accepts is
      removed, the others are kept in order. */
  function Remove(s: string, drop: char -> bool): (r: string)
    ensures |r| <= |s|
    ensures forall k :: 0 <= k < |r| ==> !drop(r[k])
    ensures forall k :: 0 <= k < |r| ==> r[k] in s
    decreases |s|
  {
    if s == [] then [] else (if drop(s[0]) then [] else [s[0]]) + Remove(s[1..], drop)
  }

  predicate NoSpaces(s: string)
  {
    forall k :: 0 <= k < |s| ==> !IsSpace(s[k])
  }

  /** Nothing to remove: the string is unchanged. */
  lemma {:induction false} RemoveNothing(s: string, drop: char -> bool)
    requires forall k :: 0 <= k < |s| ==> !drop(s[k])
    ensures Remove(s, drop) == s
    decreases |s|
  {
    if s != [] {
      RemoveNothing(s[1..], drop);
    }
  }

  lemma RemoveIdempotent(s: string, drop: char -> bool)
    ensures Remove(Remove(s, drop), drop) == Remove(s, drop)
  {
    RemoveNothing(Remove(s, drop), drop);
  }

  // ---------------------------------------------------------------- searching

  predicate OccursAt(s: string, pat: string, i: nat)
  {
    i + |pat| <= |s| && s[i..i + |pat|] == pat
  }

  /** `i` is where `String.prototype.indexOf(pat)` finds `pat` in `s`. */
  predicate FirstOccurrence(s: string, pat: string, i: nat)
  {
    OccursAt(s, pat, i) && forall k :: 0 <= k < i ==> !OccursAt(s, pat, k)
  }

  function IndexOfFrom(s: string, pat: string, from: nat): (r: Option<nat>)
    ensures r.Some? ==> from <= r.value && OccursAt(s, pat, r.value)
    ensures r.Some? ==> forall k :: from <= k < r.value ==> !OccursAt(s, pat, k)
    ensures r.None? ==> forall k :: from <= k ==> !OccursAt(s, pat, k)
    decreases |s| - from
  {
    if from + |pat| > |s| then None
    else if OccursAt(s, pat, from) then Some(from)
    else IndexOfFrom(s, pat, from + 1)
  }

  /** `String.prototype.indexOf` as an option: the first position where `pat` occurs. */
  function IndexOf(s: string, pat: string): (r: Option<nat>)
    ensures r.Some? ==> FirstOccurrence(s, pat, r.value)
    ensures r.None? ==> forall k: nat :: !OccursAt(s, pat, k)
  {
    IndexOfFrom(s, pat, 0)
  }

  /** `String.prototype.includes`: plain substring containment. */
  predicate Includes(s: string, pat: string)
  {
    IndexOf(s, pat).Some?
  }

  /** The first occurrence is unique, so `indexOf` finds exactly it. */
  lemma IndexOfIsFirst(s: string, pat: string, i: nat)
    requires FirstOccurrence(s, pat, i)
    ensures IndexOf(s, pat) == Some(i)
  {
    var r := IndexOf(s, pat);
    assert r.Some?;
  }

  lemma IncludesAt(s: string, pat: string, i: nat)
    requires OccursAt(s, pat, i)
    ensures Includes(s, pat)
  {
  }

  /** A string includes nothing longer than itself. */
  lemma IncludesShorter(s: string, pat: string)
    requires Includes(s, pat)
    ensures |pat| <= |s|
  {
    assert OccursAt(s, pat, IndexOf(s, pat).value);
  }

  lemma IncludesConcat(a: string, pat: string, b: string)
    ensures Includes(a + pat + b, pat)
  {
    assert (a + pat + b)[|a|..|a| + |pat|] == pat;
    IncludesAt(a + pat + b, pat, |a|);
  }

  /** A pattern cannot start inside a prefix that lacks its first character. */
  lemma FirstAfterClean(a: string, pat: string, b: string)
    requires |pat| > 0 && pat[0] !in a
    ensures FirstOccurrence(a + pat + b, pat, |a|)
  {
    var s := a + pat + b;
    assert s[|a|..|a| + |pat|] == pat;
    forall k | 0 <= k < |a| ensures !OccursAt(s, pat, k) {
      assert s[k] == a[k] != pat[0];
      if k + |pat| <= |s| {
        assert s[k..k + |pat|][0] == s[k];
      }
    }
  }

  // ---------------------------------------------------------------- replace

  /** ECMAScript GetSubstitution for a string pattern (no capture groups): `$$` is a dollar sign,
      `$&` the matched text, `` $` `` the text before the match, `$'` the text after it; any other
      `$` stands for itself. */
  function Substitution(rep: string, matched: string, before: string, after: string): string
    decreases |rep|
  {
    if |rep| == 0 then ""
    else if rep[0] == '$' && |rep| >= 2 && rep[1] == '$' then "$" + Substitution(rep[2..], matched, before, after)
    else if rep[0] == '$' && |rep| >= 2 && rep[1] == '&' then matched + Substitution(rep[2..], matched, before, after)
    else if rep[0] == '$' && |rep| >= 2 && rep[1] == '`' then before + Substitution(rep[2..], matched, before, after)
    else if rep[0] == '$' && |rep| >= 2 && rep[1] == '\'' then after + Substitution(rep[2..], matched, before, after)
    else [rep[0]] + Substitution(rep[1..], matched, before, after)
  }

  /** A replacement without `$` is inserted literally. */
  lemma {:induction false} SubstitutionLiteral(rep: string, matched: string, before: string, after: string)
    requires '$' !in rep
    ensures Substitution(rep, matched, before, after) == rep
    decreases |rep|
  {
    if |rep| > 0 {
      assert rep[0] != '$';
      assert forall c :: c in rep[1..] ==> c in rep;
      SubstitutionLiteral(rep[1..], matched, before, after);
    }
  }

  /** `String.prototype.replace(pat, rep)` with a string `pat`: only the first occurrence is replaced. */
  function Replace(s: string, pat: string, rep: string): (r: string)
    ensures !Includes(s, pat) ==> r == s
  {
    match IndexOf(s, pat)
    case None => s
    case Some(i) => s[..i] + Substitution(rep, pat, s[..i], s[i + |pat|..]) + s[i + |pat|..]
  }

  /** Replacing at the first occurrence with a `$`-free replacement splices it in there and
      leaves the rest of `s`, later occurrences included, as it was. */
  lemma ReplaceFirst(s: string, pat: string, rep: string, i: nat)
    requires FirstOccurrence(s, pat, i)
    requires '$' !in rep
    ensures Replace(s, pat, rep) == s[..i] + rep + s[i + |pat|..]
  {
    IndexOfIsFirst(s, pat, i);
    SubstitutionLiteral(rep, pat, s[..i], s[i + |pat|..]);
  }

  /** A pattern placed after a stretch that lacks its first character is replaced right there. */
  lemma ReplaceAfterClean(a: string, pat: string, rep: string, b: string)
    requires |pat| > 0 && pat[0] !in a && '$' !in rep
    ensures Replace(a + pat + b, pat, rep) == a + rep + b
  {
    var s := a + pat + b;
    FirstAfterClean(a, pat, b);
    ReplaceFirst(s, pat, rep, |a|);
    assert s[..|a|] == a;
    assert s[|a| + |pat|..] == b;
  }

  /** A pattern at the very start is replaced there. */
  lemma ReplaceAtStart(pat: string, rep: string, b: string)
    requires |pat| > 0 && '$' !in rep
    ensures Replace(pat + b, pat, rep) == rep + b
  {
    assert [] + pat + b == pat + b;
    assert [] + rep + b == rep + b;
    ReplaceAfterClean([], pat, rep, b);
  }

  /** The substitution patterns are live: `$$` inserts a single dollar sign. */
  lemma DollarPatternExample()
    ensures Replace("a{x}b", "{x}", "$$") == "a$b"
  {
    var s, pat := "a{x}b", "{x}";
    assert OccursAt(s, pat, 1) by { assert s[1..4] == pat; }
    assert !OccursAt(s, pat, 0) by { assert s[0] != pat[0]; }
    IndexOfIsFirst(s, pat, 1);
    assert s[..1] == "a" && s[4..] == "b";
  }

  // ---------------------------------------------------------------- join

  /** `Array.prototype.join(sep)` on strings. */
  function Join(parts: seq<string>, sep: string): string
    decreases |parts|
  {
    if |parts| == 0 then ""
    else if |parts| == 1 then parts[0]
    else parts[0] + sep + Join(parts[1..], sep)
  }

  /** With a non-empty separator the join is empty exactly when there is nothing or one empty part. */
  lemma JoinIsEmpty(parts: seq<string>, sep: string)
    requires sep != ""
    ensures Join(parts, sep) == "" <==> (|parts| == 0 || (|parts| == 1 && parts[0] == ""))
  {
    if |parts| >= 2 {
      assert |Join(parts, sep)| >= |sep|;
    }
  }

  // ---------------------------------------------------------------- numbers

  function DigitChar(d: nat): char
    requires d < 10
  {
    ('0' as int + d) as char
  }

  predicate IsDigits(s: string)
  {
    forall k :: 0 <= k < |s| ==> '0' <= s[k] <= '9'
  }

  /** `String(n)` for a non-negative integer: its decimal digits, without leading zeros. */
  function DecimalString(n: nat): (r: string)
    ensures |r| >= 1 && IsDigits(r)
    decreases n
  {
    if n < 10 then [DigitChar(n)] else DecimalString(n / 10) + [DigitChar(n % 10)]
  }

  /** The number a string of decimal digits denotes. */
  function DecimalValue(s: string): nat
    requires IsDigits(s)
    decreases |s|
  {
    if s == [] then 0 else DecimalValue(s[..|s| - 1]) * 10 + (s[|s| - 1] as int - '0' as int)
  }

  lemma {:induction false} DecimalRoundTrip(n: nat)
    ensures DecimalValue(DecimalString(n)) == n
    decreases n
  {
    if n >= 10 {
      var s := DecimalString(n);
      assert s[..|s| - 1] == DecimalString(n / 10);
      DecimalRoundTrip(n / 10);
    }
  }

  lemma DecimalStringInjective(m: nat, n: nat)
    requires DecimalString(m) == DecimalString(n)
    ensures m == n
  {
    DecimalRoundTrip(m);
    DecimalRoundTrip(n);
  }
}

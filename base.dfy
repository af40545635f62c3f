/** Values shared by every module: optional values, the exceptions the
    library raises, and the handful of Python string methods the style layer
    relies on (ASCII only). */
module Base {

  datatype Option<+T> = None | Some(value: T)

  /** The Python exceptions that surface from the style layer.  `Exception`
      keeps the positional arguments the library passes, so the offending
      token is always the first of them. */
  datatype Error =
    | Exception(args: seq<string>)
    | KeyError(key: string)
    | AttributeError(attr: string)
    | IndexError
    | RecursionError
    | TclError(message: string)
      // colour conversion was handed the value of a colour the scheme does
      // not have; the converter is outside the model, so its exception is
      // only named by the colour that was asked for
    | NoSuchColor(name: string)

  datatype Result<+T> = Ok(value: T) | Err(error: Error)

  // ---------------------------------------------------------------------------
  // Characters
  // ---------------------------------------------------------------------------

  predicate IsUpperChar(c: char) { 'A' <= c <= 'Z' }
  predicate IsLowerChar(c: char) { 'a' <= c <= 'z' }
  /** Python's notion of a "cased" character, restricted to ASCII. */
  predicate IsCased(c: char) { IsUpperChar(c) || IsLowerChar(c) }

  function ToLowerChar(c: char): (r: char)
    ensures !IsUpperChar(r)
    ensures IsCased(c) <==> IsCased(r)
    ensures !IsUpperChar(c) ==> r == c
  {
    if IsUpperChar(c) then (c - 'A' + 'a') as char else c
  }

  function ToUpperChar(c: char): (r: char)
    ensures !IsLowerChar(r)
    ensures IsCased(c) <==> IsCased(r)
    ensures !IsLowerChar(c) ==> r == c
  {
    if IsLowerChar(c) then (c - 'a' + 'A') as char else c
  }

  // ---------------------------------------------------------------------------
  // str.lower, str.title, str.isupper, str.startswith
  // ---------------------------------------------------------------------------

  /** `s.lower()` */
  function Lower(s: string): (r: string)
    ensures |r| == |s|
    ensures forall i :: 0 <= i < |s| ==> r[i] == ToLowerChar(s[i])
  {
    seq(|s|, i requires 0 <= i < |s| => ToLowerChar(s[i]))
  }

  /** `s.title()`: a cased character is upper-cased when the character before
      it is not cased, and lower-cased otherwise; other characters stay. */
  function Title(s: string): (r: string)
    ensures |r| == |s|
  {
    TitleAfter(s, false)
  }

  function TitleAfter(s: string, prevCased: bool): (r: string)
    ensures |r| == |s|
  {
    if s == [] then []
    else
      var c := s[0];
      [if !IsCased(c) then c else if prevCased then ToLowerChar(c) else ToUpperChar(c)]
      + TitleAfter(s[1..], IsCased(c))
  }

  /** Title-casing only changes case: lower-casing both sides agrees. */
  lemma {:induction false} TitleKeepsLetters(s: string, prevCased: bool)
    ensures Lower(TitleAfter(s, prevCased)) == Lower(s)
  {
    if s != [] {
      TitleKeepsLetters(s[1..], IsCased(s[0]));
      assert Lower(TitleAfter(s, prevCased))[0] == Lower(s)[0];
      assert Lower(TitleAfter(s, prevCased))[1..] == Lower(TitleAfter(s[1..], IsCased(s[0])));
      assert Lower(s)[1..] == Lower(s[1..]);
    }
  }

  /** `s.isupper()`: some character is cased and none is lower case. */
  function IsUpper(s: string): (r: bool)
    ensures r <==> Lower(s) != s && forall i :: 0 <= i < |s| ==> !IsLowerChar(s[i])
  {
    (exists i :: 0 <= i < |s| && IsUpperChar(s[i])) &&
    (forall i :: 0 <= i < |s| ==> !IsLowerChar(s[i]))
  }

  predicate StartsWith(s: string, prefix: string)
  {
    |prefix| <= |s| && s[..|prefix|] == prefix
  }

  /** `s[:n]` with Python's clamping of the bound. */
  function Take(s: string, n: nat): (r: string)
    ensures |r| == if n <= |s| then n else |s|
    ensures StartsWith(s, r)
  {
    if n <= |s| then s[..n] else s
  }

  // ---------------------------------------------------------------------------
  // str.split(sep) and its inverse sep.join(parts)
  // ---------------------------------------------------------------------------

  /** `s.split(sep)` for a one-character separator: empty pieces are kept. */
  function Split(s: string, sep: char): (parts: seq<string>)
    ensures |parts| >= 1
    ensures forall i :: 0 <= i < |parts| ==> sep !in parts[i]
  {
    if s == [] then [""]
    else
      var rest := Split(s[1..], sep);
      if s[0] == sep then [""] + rest
      else [[s[0]] + rest[0]] + rest[1..]
  }

  /** `sep.join(parts)` */
  function Join(parts: seq<string>, sep: char): (r: string)
    requires |parts| >= 1
    ensures StartsWith(r, parts[0])
    ensures |parts| > 1 ==> |r| > |parts[0]| && r[|parts[0]|] == sep
  {
    if |parts| == 1 then parts[0] else parts[0] + [sep] + Join(parts[1..], sep)
  }

  /** Splitting and joining again gives back the string. */
  lemma {:induction false} JoinSplit(s: string, sep: char)
    ensures Join(Split(s, sep), sep) == s
  {
    if s != [] {
      JoinSplit(s[1..], sep);
      var rest := Split(s[1..], sep);
      if s[0] != sep {
        if |rest| == 1 {
          assert Join(Split(s, sep), sep) == [s[0]] + rest[0];
        } else {
          assert Split(s, sep)[1..] == rest[1..];
          assert Join(rest, sep) == rest[0] + [sep] + Join(rest[1..], sep);
        }
      } else {
        assert Split(s, sep)[1..] == rest;
      }
    }
  }

  /** Joining pieces free of the separator and splitting again gives back the
      pieces. */
  lemma {:induction false} SplitJoin(parts: seq<string>, sep: char)
    requires |parts| >= 1
    requires forall i :: 0 <= i < |parts| ==> sep !in parts[i]
    ensures Split(Join(parts, sep), sep) == parts
  {
    if |parts| == 1 {
      SplitNoSep(parts[0], sep);
    } else {
      SplitJoin(parts[1..], sep);
      SplitPrefix(parts[0], Join(parts[1..], sep), sep);
      assert Join(parts, sep) == parts[0] + ([sep] + Join(parts[1..], sep));
    }
  }

  lemma {:induction false} SplitNoSep(s: string, sep: char)
    requires sep !in s
    ensures Split(s, sep) == [s]
  {
    if s != [] {
      SplitNoSep(s[1..], sep);
      assert [s[0]] + s[1..] == s;
    }
  }

  /** A separator-free prefix glued to a separator and a tail splits as the
      prefix followed by the tail's pieces. */
  lemma {:induction false} SplitPrefix(head: string, tail: string, sep: char)
    requires sep !in head
    ensures Split(head + ([sep] + tail), sep) == [head] + Split(tail, sep)
  {
    if head == [] {
      assert head + ([sep] + tail) == [sep] + tail;
      assert ([sep] + tail)[1..] == tail;
    } else {
      SplitPrefix(head[1..], tail, sep);
      assert (head + ([sep] + tail))[1..] == head[1..] + ([sep] + tail);
      assert [head[0]] + head[1..] == head;
    }
  }

  // ---------------------------------------------------------------------------
  // str.replace(old, new)
  // ---------------------------------------------------------------------------

  predicate OccursAt(s: string, pat: string, i: nat)
  {
    i + |pat| <= |s| && s[i..i + |pat|] == pat
  }

  /** `s.replace(pat, rep)`: every non-overlapping occurrence, scanning from
      the left. */
  function Replace(s: string, pat: string, rep: string): string
    requires |pat| > 0
    decreases |s|
  {
    if |s| < |pat| then s
    else if s[..|pat|] == pat then rep + Replace(s[|pat|..], pat, rep)
    else [s[0]] + Replace(s[1..], pat, rep)
  }

  /** A string in which the pattern never occurs comes back unchanged. */
  lemma {:induction false} ReplaceNone(s: string, pat: string, rep: string)
    requires |pat| > 0
    requires forall i :: 0 <= i < |s| ==> !OccursAt(s, pat, i)
    ensures Replace(s, pat, rep) == s
    decreases |s|
  {
    if |s| >= |pat| {
      assert !OccursAt(s, pat, 0);
      NoOccurrenceTail(s, pat);
      ReplaceNone(s[1..], pat, rep);
      assert s == [s[0]] + s[1..];
    }
  }

  lemma NoOccurrenceTail(s: string, pat: string)
    requires |s| > 0
    requires forall i :: 0 <= i < |s| ==> !OccursAt(s, pat, i)
    ensures forall i :: 0 <= i < |s[1..]| ==> !OccursAt(s[1..], pat, i)
  {
    forall i | 0 <= i < |s[1..]| && OccursAt(s[1..], pat, i)
      ensures OccursAt(s, pat, i + 1)
    {
      assert s[i + 1..i + 1 + |pat|] == s[1..][i..i + |pat|];
    }
  }

  /** Characters that cannot begin the pattern are copied through. */
  lemma {:induction false} ReplaceSkip(x: string, rest: string, pat: string, rep: string)
    requires |pat| > 0 && pat[0] !in x
    ensures Replace(x + rest, pat, rep) == x + Replace(rest, pat, rep)
    decreases |x|
  {
    if x != [] {
      var s := x + rest;
      if |s| < |pat| {
        assert Replace(s, pat, rep) == s;
        assert |rest| < |pat|;
      } else {
        assert s[..|pat|] != pat by {
          assert s[..|pat|][0] == x[0];
        }
        assert Replace(s, pat, rep) == [s[0]] + Replace(s[1..], pat, rep);
        assert s[1..] == x[1..] + rest;
        ReplaceSkip(x[1..], rest, pat, rep);
        assert x == [x[0]] + x[1..];
      }
    } else {
      assert x + rest == rest;
    }
  }

  lemma AppendAssoc<T>(x: seq<T>, y: seq<T>, z: seq<T>)
    ensures x + (y + z) == (x + y) + z
  {
  }

  /** Where the pattern does not start, the first character is kept. */
  lemma ReplaceMiss(s: string, pat: string, rep: string)
    requires |pat| > 0 && |s| > 0 && !OccursAt(s, pat, 0)
    ensures Replace(s, pat, rep) == [s[0]] + Replace(s[1..], pat, rep)
  {
    if |s| < |pat| {
      assert |s[1..]| < |pat|;
      assert s == [s[0]] + s[1..];
    }
  }

  lemma NoOccurrenceShift(a: string, pat: string)
    requires |a| > 0
    requires forall i :: 0 <= i < |a| ==> !OccursAt(a + pat, pat, i)
    ensures forall i :: 0 <= i < |a[1..]| ==> !OccursAt(a[1..] + pat, pat, i)
  {
    var t := a + pat;
    assert t[1..] == a[1..] + pat;
    forall i | 0 <= i < |a[1..]|
      ensures !OccursAt(a[1..] + pat, pat, i)
    {
      assert !OccursAt(t, pat, i + 1);
      assert t[i + 1..i + 1 + |pat|] == t[1..][i..i + |pat|];
    }
  }

  /** The first occurrence of the pattern becomes the replacement, and the
      scan carries on after it. */
  lemma {:induction false} ReplaceOnce(a: string, pat: string, rep: string, b: string)
    requires |pat| > 0
    requires forall i :: 0 <= i < |a| ==> !OccursAt(a + pat, pat, i)
    ensures Replace(a + pat + b, pat, rep) == a + rep + Replace(b, pat, rep)
    decreases |a|
  {
    var s := a + pat + b;
    if a == [] {
      ReplaceHit(pat, rep, b);
      assert s == pat + b;
    } else {
      var tail := Replace(b, pat, rep);
      NoOccurrenceShift(a, pat);
      ReplaceOnce(a[1..], pat, rep, b);
      AppendAssoc(a[1..], pat, b);
      AppendAssoc(a[1..], rep, tail);
      OccursInPrefix(a + pat, b, pat, 0);
      AppendAssoc(a, pat, b);
      ReplaceOnceStep(a, pat + b, pat, rep, rep + tail);
      AppendAssoc(a, rep, tail);
    }
  }

  /** A character the pattern does not start at is kept in front of the
      rest of the scan. */
  lemma ReplaceOnceStep(a: string, w: string, pat: string, rep: string, r: string)
    requires |pat| > 0 && |a| > 0 && !OccursAt(a + w, pat, 0)
    requires Replace(a[1..] + w, pat, rep) == a[1..] + r
    ensures Replace(a + w, pat, rep) == a + r
  {
    var s := a + w;
    ReplaceMiss(s, pat, rep);
    assert s[1..] == a[1..] + w;
    assert Replace(s, pat, rep) == [a[0]] + (a[1..] + r);
    AppendAssoc([a[0]], a[1..], r);
    assert [a[0]] + a[1..] == a;
  }

  /** Where the pattern starts, it is replaced. */
  lemma ReplaceHit(pat: string, rep: string, b: string)
    requires |pat| > 0
    ensures Replace(pat + b, pat, rep) == rep + Replace(b, pat, rep)
  {
    var s := pat + b;
    assert s[..|pat|] == pat && s[|pat|..] == b;
  }

  /** An occurrence that ends within `t` does not depend on what follows. */
  lemma OccursInPrefix(t: string, b: string, pat: string, i: nat)
    requires i + |pat| <= |t|
    ensures OccursAt(t + b, pat, i) == OccursAt(t, pat, i)
  {
    assert (t + b)[i..i + |pat|] == t[i..i + |pat|];
  }

  // ---------------------------------------------------------------------------
  // Tables of sets: `table.setdefault(key, set()).update(items)`
  // ---------------------------------------------------------------------------

  /** The table after adding `items` to the set under `key`, creating the
      set when the key is new. */
  function AddTo<K, V>(table: map<K, set<V>>, key: K, items: set<V>): (t: map<K, set<V>>)
    ensures key in t && items <= t[key]
  {
    if key !in table then table[key := items] else table[key := table[key] + items]
  }

  /** Only `key`'s set changes; it gains exactly `items`. */
  lemma AddToFrame<K, V>(table: map<K, set<V>>, key: K, items: set<V>)
    ensures var t := AddTo(table, key, items);
            t.Keys == table.Keys + {key} &&
            (forall k :: k in table && k != key ==> t[k] == table[k]) &&
            (forall v :: v in t[key] <==> v in items || (key in table && v in table[key]))
  {
  }

  /** Adding the same items a second time changes nothing. */
  lemma AddToIdempotent<K, V>(table: map<K, set<V>>, key: K, items: set<V>)
    ensures AddTo(AddTo(table, key, items), key, items) == AddTo(table, key, items)
  {
    var once := AddTo(table, key, items);
    assert once[key] + items == once[key];
    assert once[key := once[key]] == once;
  }
}

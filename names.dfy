/**
 * The participant names of the `collectNames` step: the reply is split on commas,
 * every piece is trimmed and the empty pieces are dropped
 * (`message.split(',').map(name => name.trim()).filter(name => name.length > 0)`).
 * The names are shown back joined with ", ", and reading that text again gives the
 * same names.
 */
module Names {
  import opened Seqs

  /** The characters `String.prototype.trim` removes: white space and line terminators. */
  predicate IsWhitespace(c: char)
  {
    var n := c as int;
    || n == 0x09 || n == 0x0A || n == 0x0B || n == 0x0C || n == 0x0D || n == 0x20 || n == 0xA0
    || n == 0x1680 || (0x2000 <= n <= 0x200A) || n == 0x2028 || n == 0x2029 || n == 0x202F
    || n == 0x205F || n == 0x3000 || n == 0xFEFF
  }

  predicate AllWhitespace(s: string)
  {
    forall c <- s :: IsWhitespace(c)
  }

  /** A name as the step stores it: not empty, without commas, and trimmed. */
  predicate IsName(n: string)
  {
    n != [] && ',' !in n && !IsWhitespace(n[0]) && !IsWhitespace(n[|n| - 1])
  }

  /** `text.split(',')`: the pieces between the commas, so `k` commas give `k + 1` pieces. */
  function Split(text: string): (pieces: seq<string>)
    ensures |pieces| >= 1
    ensures forall p <- pieces :: ',' !in p
  {
    if text == [] then [[]]
    else
      var rest := Split(text[1..]);
      if text[0] == ',' then [[]] + rest
      else [[text[0]] + rest[0]] + rest[1..]
  }

  /** `pieces.join(',')`. */
  function Join(pieces: seq<string>): string
  {
    if pieces == [] then []
    else if |pieces| == 1 then pieces[0]
    else pieces[0] + "," + Join(pieces[1..])
  }

  /** Splitting loses nothing: joining the pieces with commas gives the text back. */
  lemma {:induction false} JoinSplit(text: string)
    ensures Join(Split(text)) == text
  {
    if text != [] {
      var rest := Split(text[1..]);
      JoinSplit(text[1..]);
      if text[0] == ',' {
        assert ([[]] + rest)[1..] == rest;
        assert text == [','] + text[1..];
      } else {
        var pieces := [[text[0]] + rest[0]] + rest[1..];
        assert pieces[1..] == rest[1..];
        if |rest| == 1 {
          assert text == [text[0]] + rest[0];
        } else {
          assert Join(rest) == rest[0] + "," + Join(rest[1..]);
          assert text == [text[0]] + text[1..];
        }
      }
    }
  }

  /** A comma-free prefix is glued onto the first piece of what follows it. */
  lemma {:induction false} SplitPrefix(a: string, t: string)
    requires ',' !in a
    ensures Split(a + t) == [a + Split(t)[0]] + Split(t)[1..]
  {
    if a != [] {
      assert (a + t)[0] == a[0];
      assert (a + t)[1..] == a[1..] + t;
      SplitPrefix(a[1..], t);
      assert [a[0]] + (a[1..] + Split(t)[0]) == a + Split(t)[0];
    } else {
      assert a + t == t;
      assert a + Split(t)[0] == Split(t)[0];
      assert Split(t) == [Split(t)[0]] + Split(t)[1..];
    }
  }

  /** Text without commas is a single piece. */
  lemma SplitWithoutComma(a: string)
    requires ',' !in a
    ensures Split(a) == [a]
  {
    SplitPrefix(a, []);
    assert a + [] == a;
  }

  /** A comma ends the first piece. */
  lemma SplitAtComma(a: string, b: string)
    requires ',' !in a
    ensures Split(a + "," + b) == [a] + Split(b)
  {
    SplitPrefix(a, "," + b);
    assert a + "," + b == a + ("," + b);
    assert ("," + b)[0] == ',' && ("," + b)[1..] == b;
    assert Split("," + b) == [[]] + Split(b);
    assert a + [] == a;
  }

  /** `s.trimStart()`: `s` without its leading white space. */
  function TrimStart(s: string): (r: string)
    ensures |r| <= |s| && r == s[|s| - |r|..]
    ensures r == [] || !IsWhitespace(r[0])
    ensures forall i :: 0 <= i < |s| - |r| ==> IsWhitespace(s[i])
  {
    if s != [] && IsWhitespace(s[0]) then TrimStart(s[1..]) else s
  }

  /** `s.trimEnd()`: `s` without its trailing white space. */
  function TrimEnd(s: string): (r: string)
    ensures |r| <= |s| && r == s[..|r|]
    ensures r == [] || !IsWhitespace(r[|r| - 1])
    ensures forall i :: |r| <= i < |s| ==> IsWhitespace(s[i])
  {
    if s != [] && IsWhitespace(s[|s| - 1]) then TrimEnd(s[..|s| - 1]) else s
  }

  /** A suffix after white space, cut before white space, is a slice with white space on both sides. */
  lemma TrimmedSlice(s: string, t: string, r: string)
    requires |t| <= |s| && t == s[|s| - |t|..] && forall i :: 0 <= i < |s| - |t| ==> IsWhitespace(s[i])
    requires |r| <= |t| && r == t[..|r|] && forall i :: |r| <= i < |t| ==> IsWhitespace(t[i])
    ensures exists i, j :: 0 <= i <= j <= |s| && r == s[i..j] && AllWhitespace(s[..i]) && AllWhitespace(s[j..])
    ensures forall c <- r :: c in s
    ensures r == [] ==> AllWhitespace(s)
  {
    var i := |s| - |t|;
    var j := i + |r|;
    assert r == s[i..j];
    assert forall c <- r :: c in s by {
      forall c <- r ensures c in s {
        var k :| 0 <= k < |r| && r[k] == c;
        assert s[i + k] == c;
      }
    }
    if r == [] {
      assert t == s[i..];
      forall c <- s ensures IsWhitespace(c) {
        var k :| 0 <= k < |s| && s[k] == c;
        if k >= i {
          assert c == t[k - i];
        }
      }
    }
    assert AllWhitespace(s[..i]) by {
      forall c <- s[..i] ensures IsWhitespace(c) {
        var k :| 0 <= k < i && s[..i][k] == c;
      }
    }
    assert AllWhitespace(s[j..]) by {
      forall c <- s[j..] ensures IsWhitespace(c) {
        var k :| 0 <= k < |s| - j && s[j..][k] == c;
        assert c == t[|r| + k];
      }
    }
  }

  /** `s.trim()`: a middle part of `s` that starts and ends with non-white characters. */
  function Trim(s: string): (r: string)
    ensures r == [] || (!IsWhitespace(r[0]) && !IsWhitespace(r[|r| - 1]))
    ensures r == [] <==> AllWhitespace(s)
    ensures forall c <- r :: c in s
    ensures exists i, j :: 0 <= i <= j <= |s| && r == s[i..j] && AllWhitespace(s[..i]) && AllWhitespace(s[j..])
  {
    var t := TrimStart(s);
    var r := TrimEnd(t);
    TrimmedSlice(s, t, r);
    r
  }

  /** White space in front of a name is all that trimming removes. */
  lemma {:induction false} TrimPadded(w: string, n: string)
    requires AllWhitespace(w) && IsName(n)
    ensures Trim(w + n) == n
  {
    if w == [] {
      assert w + n == n;
    } else {
      assert (w + n)[0] == w[0];
      assert (w + n)[1..] == w[1..] + n;
      TrimPadded(w[1..], n);
    }
  }

  /** `pieces.map(name => name.trim()).filter(name => name.length > 0)`. */
  function Clean(pieces: seq<string>): (names: seq<string>)
    ensures |names| <= |pieces|
  {
    if pieces == [] then []
    else
      var t := Trim(pieces[0]);
      (if t == [] then [] else [t]) + Clean(pieces[1..])
  }

  /** Cleaning comma-free pieces leaves names only. */
  lemma {:induction false} CleanNames(pieces: seq<string>)
    requires forall p <- pieces :: ',' !in p
    ensures forall n <- Clean(pieces) :: IsName(n)
  {
    if pieces != [] {
      var p, rest := pieces[0], pieces[1..];
      assert p in pieces;
      TrimName(p);
      CleanNames(rest);
    }
  }

  /** A comma-free piece trims to nothing or to a name. */
  lemma TrimName(p: string)
    requires ',' !in p
    ensures Trim(p) == [] || IsName(Trim(p))
  {
    var t := Trim(p);
    assert ',' !in t;
  }

  /** Cleaning works piece by piece, keeping the order of the pieces. */
  lemma {:induction false} CleanAppend(a: seq<string>, b: seq<string>)
    ensures Clean(a + b) == Clean(a) + Clean(b)
  {
    if a == [] {
      assert a + b == b;
    } else {
      var t := Trim(a[0]);
      var head := if t == [] then [] else [t];
      assert Clean(a + b) == head + Clean(a[1..] + b) by {
        assert (a + b)[0] == a[0];
        assert (a + b)[1..] == a[1..] + b;
      }
      CleanAppend(a[1..], b);
      AppendAssociates(head, Clean(a[1..]), Clean(b));
    }
  }

  /** The names a `collectNames` reply holds. */
  function Parse(text: string): (names: seq<string>)
    ensures forall n <- names :: IsName(n)
    ensures |names| <= |Split(text)|
  {
    CleanNames(Split(text));
    Clean(Split(text))
  }

  /** The first comma-separated piece contributes its trimmed form, if not empty, ahead of the rest. */
  lemma ParseAtComma(first: string, rest: string)
    requires ',' !in first
    ensures Parse(first + "," + rest) == Clean([first]) + Parse(rest)
  {
    SplitAtComma(first, rest);
    CleanAppend([first], Split(rest));
  }

  /** `names.join(', ')`, the form in which the step shows the names back. */
  function JoinNames(names: seq<string>): string
  {
    if names == [] then []
    else if |names| == 1 then names[0]
    else names[0] + ", " + JoinNames(names[1..])
  }

  /** Nothing but white space holds no names. */
  lemma ParseBlank(w: string)
    requires AllWhitespace(w)
    ensures Parse(w) == []
  {
    assert ',' !in w;
    SplitWithoutComma(w);
  }

  /** One name after white space is read back as that name. */
  lemma ParseOne(w: string, n: string)
    requires AllWhitespace(w) && IsName(n)
    ensures Parse(w + n) == [n]
  {
    assert ',' !in w;
    assert ',' !in w + n;
    SplitWithoutComma(w + n);
    TrimPadded(w, n);
  }

  /** The separator ", " is a comma that ends one piece and a space that starts the next. */
  lemma Regroup(w: string, n: string, j: string)
    ensures w + (n + ", " + j) == (w + n) + "," + (" " + j)
  {
    assert ", " == "," + " ";
  }

  /** A name after white space, then ", " and more text: the name comes first. */
  lemma ParseCons(w: string, n: string, j: string, tail: seq<string>)
    requires AllWhitespace(w) && IsName(n)
    requires Parse(" " + j) == tail
    ensures Parse(w + (n + ", " + j)) == [n] + tail
  {
    var first, rest := w + n, " " + j;
    assert Parse(w + (n + ", " + j)) == Parse(first + "," + rest) by {
      Regroup(w, n, j);
    }
    assert Parse(first + "," + rest) == Clean([first]) + Parse(rest) by {
      assert ',' !in w;
      ParseAtComma(first, rest);
    }
    assert Clean([first]) == [n] by {
      TrimPadded(w, n);
    }
  }

  /** Reading back the displayed names, after any leading white space, gives the names. */
  lemma {:induction false} ParsePadded(w: string, names: seq<string>)
    requires AllWhitespace(w)
    requires forall n <- names :: IsName(n)
    ensures Parse(w + JoinNames(names)) == names
    decreases |names|
  {
    if names == [] {
      assert w + JoinNames(names) == w;
      ParseBlank(w);
    } else if |names| == 1 {
      assert names[0] in names;
      ParseOne(w, names[0]);
    } else {
      var n, tail := names[0], names[1..];
      var j := JoinNames(tail);
      assert IsName(n) by {
        assert n in names;
      }
      assert Parse(" " + j) == tail by {
        assert AllWhitespace(" ");
        assert forall m <- tail :: m in names;
        ParsePadded(" ", tail);
      }
      ParseCons(w, n, j, tail);
      assert JoinNames(names) == n + ", " + j;
      assert names == [n] + tail;
    }
  }

  /** Parsing inverts the display join: `names` comes back from `names.join(', ')`. */
  lemma ParseJoinNames(names: seq<string>)
    requires forall n <- names :: IsName(n)
    ensures Parse(JoinNames(names)) == names
  {
    ParsePadded([], names);
    assert [] + JoinNames(names) == JoinNames(names);
  }
}

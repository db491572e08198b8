/** `String.prototype.split(" ")` as the access guard uses it to pull the
    token out of an `Authorization` header, with its inverse `join(" ")`. */
module Text {
  import opened Common

  /** The words of `s` between single spaces, as `s.split(" ")` returns them:
      there is always at least one, none contains a space, and two adjacent
      spaces give an empty word between them. */
  function Split(s: string): (parts: seq<string>)
    ensures |parts| >= 1
    ensures forall i :: 0 <= i < |parts| ==> ' ' !in parts[i]
    ensures |parts| == 1 <==> ' ' !in s
  {
    if s == [] then [""]
    else
      var rest := Split(s[1..]);
      assert s == [s[0]] + s[1..];
      if s[0] == ' ' then [""] + rest
      else [[s[0]] + rest[0]] + rest[1..]
  }

  /** `parts.join(" ")`. */
  function Join(parts: seq<string>): (s: string)
    requires |parts| >= 1
  {
    if |parts| == 1 then parts[0] else parts[0] + " " + Join(parts[1..])
  }

  /** Splitting loses nothing: joining the words back gives the header. */
  lemma {:induction false} JoinSplit(s: string)
    ensures Join(Split(s)) == s
  {
    if s != [] {
      JoinSplit(s[1..]);
      var rest := Split(s[1..]);
      if s[0] == ' ' {
        assert Split(s) == [""] + rest;
        assert Join(Split(s)) == "" + " " + Join(rest);
        assert s == [' '] + s[1..];
      } else {
        assert Split(s) == [[s[0]] + rest[0]] + rest[1..];
        if |rest| == 1 {
          assert Join(Split(s)) == [s[0]] + rest[0];
        } else {
          assert Join(Split(s)) == [s[0]] + rest[0] + " " + Join(rest[1..]);
          assert Join(rest) == rest[0] + " " + Join(rest[1..]);
        }
        assert s == [s[0]] + s[1..];
      }
    }
  }

  /** A leading word without spaces glues onto the first word of the rest. */
  lemma {:induction false} SplitPrefix(w: string, t: string)
    requires ' ' !in w
    ensures Split(w + t) == [w + Split(t)[0]] + Split(t)[1..]
  {
    if w != [] {
      SplitPrefix(w[1..], t);
      assert (w + t)[1..] == w[1..] + t;
      assert (w + t)[0] == w[0];
      assert [w[0]] + (w[1..] + Split(t)[0]) == w + Split(t)[0];
    } else {
      assert w + t == t;
      assert w + Split(t)[0] == Split(t)[0];
      assert Split(t) == [Split(t)[0]] + Split(t)[1..];
    }
  }

  /** Joining words that contain no space and splitting again gives the words back. */
  lemma {:induction false} SplitJoin(parts: seq<string>)
    requires |parts| >= 1
    requires forall i :: 0 <= i < |parts| ==> ' ' !in parts[i]
    ensures Split(Join(parts)) == parts
  {
    if |parts| == 1 {
      SplitPrefix(parts[0], "");
      assert parts[0] + "" == parts[0];
    } else {
      var j := Join(parts[1..]);
      SplitJoin(parts[1..]);
      assert Join(parts) == parts[0] + (" " + j);
      SplitPrefix(parts[0], " " + j);
      assert (" " + j)[1..] == j;
      assert Split(" " + j) == [""] + Split(j);
      assert parts[0] + "" == parts[0];
      assert parts == [parts[0]] + parts[1..];
    }
  }

  /** The element at index 1 of `header.split(" ")`: present exactly when
      the header contains a space, and itself free of spaces. */
  function SecondWord(header: string): (w: Option<string>)
    ensures w.Some? <==> ' ' in header
    ensures w.Some? ==> ' ' !in w.value
  {
    var parts := Split(header);
    if |parts| > 1 then Some(parts[1]) else None
  }

  /** `header` is a first word, one space, the word `t`, and then either
      nothing or further text starting with a space. */
  ghost predicate SecondWordIs(header: string, first: string, t: string, rest: string)
  {
    && ' ' !in first
    && ' ' !in t
    && (rest == "" || rest[0] == ' ')
    && header == first + " " + t + rest
  }

  /** The word after the first space of such a header is `t`; the first word is not looked at. */
  lemma {:induction false} SecondWordOfShape(header: string, first: string, t: string, rest: string)
    requires SecondWordIs(header, first, t, rest)
    ensures SecondWord(header) == Some(t)
  {
    assert header == first + (" " + (t + rest));
    SplitPrefix(first, " " + (t + rest));
    assert (" " + (t + rest))[1..] == t + rest;
    assert Split(" " + (t + rest)) == [""] + Split(t + rest);
    SplitPrefix(t, rest);
    if rest == "" {
      assert Split(rest) == [""];
    } else {
      assert rest == [' '] + rest[1..];
      assert Split(rest) == [""] + Split(rest[1..]);
    }
    assert Split(t + rest)[0] == t;
  }

  /** Conversely, whenever there is a second word the header has that shape. */
  lemma {:induction false} SecondWordShape(header: string)
    requires SecondWord(header).Some?
    ensures exists first, rest :: SecondWordIs(header, first, SecondWord(header).value, rest)
  {
    var parts := Split(header);
    JoinSplit(header);
    var t := parts[1];
    if |parts| == 2 {
      assert Join(parts[1..]) == t;
      assert SecondWordIs(header, parts[0], t, "");
    } else {
      var rest := " " + Join(parts[2..]);
      assert Join(parts[1..]) == t + rest;
      assert header == parts[0] + " " + t + rest;
      assert SecondWordIs(header, parts[0], t, rest);
    }
  }

  /** Any scheme word is accepted. */
  lemma SecondWordIgnoresScheme()
    ensures SecondWord("Basic X") == Some("X")
  {
    assert SecondWordIs("Basic X", "Basic", "X", "");
    SecondWordOfShape("Basic X", "Basic", "X", "");
  }

  /** A third word is ignored. */
  lemma SecondWordIgnoresThirdWord()
    ensures SecondWord("Bearer a b") == Some("a")
  {
    assert SecondWordIs("Bearer a b", "Bearer", "a", " b");
    SecondWordOfShape("Bearer a b", "Bearer", "a", " b");
  }

  /** A header without a space has no token, and a doubled space gives an empty one. */
  lemma SecondWordMissingOrEmpty()
    ensures SecondWord("Bearer") == None
    ensures SecondWord("Bearer  t") == Some("")
  {
    SplitJoin(["Bearer"]);
    assert Join(["Bearer"]) == "Bearer";
    assert SecondWordIs("Bearer  t", "Bearer", "", " t");
    SecondWordOfShape("Bearer  t", "Bearer", "", " t");
  }
}

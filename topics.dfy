/** Topics are dot-delimited routing keys. The worker routes on the first
    segment, computed as `topic.split('.')[0]`; this module models Python's
    `str.split` with an explicit separator, its inverse `sep.join`, and the
    topic prefix built on them. */
module Topics {

  const Dot: char := '.'

  /** Python's `s.split(sep)` for a one-character separator: the segments
      between separators, in order, including empty ones. */
  function Split(s: string, sep: char): (parts: seq<string>)
    ensures |parts| >= 1
    ensures forall i :: 0 <= i < |parts| ==> sep !in parts[i]
    decreases |s|
  {
    if |s| == 0 then [""]
    else
      var rest := Split(s[1..], sep);
      if s[0] == sep then [""] + rest
      else [[s[0]] + rest[0]] + rest[1..]
  }

  /** Python's `sep.join(parts)` for a non-empty list of segments. */
  function Join(parts: seq<string>, sep: char): string
    requires |parts| >= 1
    decreases |parts|
  {
    if |parts| == 1 then parts[0]
    else parts[0] + [sep] + Join(parts[1..], sep)
  }

  /** Joining the segments back with the separator gives the original string. */
  lemma {:induction false} JoinSplit(s: string, sep: char)
    ensures Join(Split(s, sep), sep) == s
    decreases |s|
  {
    if |s| > 0 {
      var rest := Split(s[1..], sep);
      JoinSplit(s[1..], sep);
      if s[0] == sep {
        assert Split(s, sep) == [""] + rest;
        assert ([""] + rest)[1..] == rest;
        assert s == [sep] + s[1..];
      } else {
        var head := [s[0]] + rest[0];
        assert Split(s, sep) == [head] + rest[1..];
        assert ([head] + rest[1..])[1..] == rest[1..];
        if |rest| == 1 {
          assert s == [s[0]] + s[1..];
        } else {
          assert Join(rest, sep) == rest[0] + [sep] + Join(rest[1..], sep);
          assert s == [s[0]] + s[1..];
        }
      }
    }
  }

  /** A separator-free block in front of `s` extends the first segment of
      `s` and leaves the others alone. */
  lemma {:induction false} SplitPrependSegment(p: string, s: string, sep: char)
    requires sep !in p
    ensures Split(p + s, sep) == [p + Split(s, sep)[0]] + Split(s, sep)[1..]
    decreases |p|
  {
    if |p| > 0 {
      SplitPrependSegment(p[1..], s, sep);
      assert (p + s)[1..] == p[1..] + s;
      assert (p + s)[0] == p[0] != sep;
      assert [p[0]] + (p[1..] + Split(s, sep)[0]) == p + Split(s, sep)[0];
    } else {
      assert p + s == s;
      assert p + Split(s, sep)[0] == Split(s, sep)[0];
      assert [Split(s, sep)[0]] + Split(s, sep)[1..] == Split(s, sep);
    }
  }

  /** Splitting a join of separator-free segments gives the segments back. */
  lemma {:induction false} SplitJoin(parts: seq<string>, sep: char)
    requires |parts| >= 1
    requires forall i :: 0 <= i < |parts| ==> sep !in parts[i]
    ensures Split(Join(parts, sep), sep) == parts
    decreases |parts|
  {
    if |parts| == 1 {
      SplitPrependSegment(parts[0], "", sep);
      assert parts[0] + "" == parts[0];
      assert parts == [parts[0]];
    } else {
      var tail := Join(parts[1..], sep);
      SplitJoin(parts[1..], sep);
      assert Split([sep] + tail, sep) == [""] + Split(tail, sep) by {
        assert ([sep] + tail)[1..] == tail;
      }
      assert parts[0] + [sep] + tail == parts[0] + ([sep] + tail);
      SplitPrependSegment(parts[0], [sep] + tail, sep);
      assert parts[0] + "" == parts[0];
      assert ([""] + parts[1..])[1..] == parts[1..];
      assert [parts[0]] + parts[1..] == parts;
    }
  }

  /** The first segment of a split is a prefix of the string, and it stops
      either at the end of the string or at a separator. */
  lemma {:induction false} SplitHead(s: string, sep: char)
    ensures Split(s, sep)[0] <= s
    ensures |Split(s, sep)[0]| < |s| ==> s[|Split(s, sep)[0]|] == sep
    decreases |s|
  {
    if |s| > 0 && s[0] != sep {
      SplitHead(s[1..], sep);
      var rest := Split(s[1..], sep);
      assert Split(s, sep)[0] == [s[0]] + rest[0];
      assert s == [s[0]] + s[1..];
    }
  }

  /** The routing prefix of a topic, `topic.split('.')[0]`: the text before
      the first '.', or the whole topic when it has none. */
  function TopicBase(topic: string): (base: string)
    ensures base <= topic
    ensures Dot !in base
    ensures |base| < |topic| ==> topic[|base|] == Dot
  {
    SplitHead(topic, Dot);
    Split(topic, Dot)[0]
  }

  /** The three properties of `TopicBase` pin it down: a string is the
      topic prefix exactly when it is a dot-free prefix of the topic that
      ends at the end of the topic or at a '.'. */
  lemma TopicBaseUnique(topic: string, p: string)
    ensures p == TopicBase(topic) <==>
              p <= topic && Dot !in p && (|p| == |topic| || topic[|p|] == Dot)
  {
  }

  /** Every topic that starts with a dot-free word followed by '.' routes
      on that word, whatever follows; a topic without '.' routes on itself. */
  lemma TopicBaseOfDotted(word: string, rest: string)
    requires Dot !in word
    ensures TopicBase(word + [Dot] + rest) == word
    ensures TopicBase(word) == word
  {
    var topic := word + [Dot] + rest;
    assert word <= topic && topic[|word|] == Dot;
    TopicBaseUnique(topic, word);
    TopicBaseUnique(word, word);
  }

  /** A dotted topic routes on its first word. */
  lemma TopicBaseExampleDotted()
    ensures TopicBase("build.linux.success") == "build"
  {
    TopicBaseOfDotted("build", "linux.success");
    assert "build" + [Dot] + "linux.success" == "build.linux.success";
  }

  /** A topic without '.' routes on the whole topic. */
  lemma TopicBaseExampleUndotted()
    ensures TopicBase("deploy") == "deploy"
  {
  }

  /** Python gives the empty prefix for an empty topic and for one that
      starts with '.'. */
  lemma TopicBaseExampleEmpty()
    ensures TopicBase("") == ""
    ensures TopicBase(".hidden") == ""
  {
  }
}

/** strings.Split and its inverse. */
module Text {

  /** The pieces of `s` between occurrences of `sep`. */
  function Split(s: string, sep: char): (parts: seq<string>)
    ensures |parts| >= 1
  {
    if s == "" then [""]
    else
      var front := Split(s[..|s| - 1], sep);
      if s[|s| - 1] == sep then front + [""]
      else front[..|front| - 1] + [front[|front| - 1] + [s[|s| - 1]]]
  }

  function Join(parts: seq<string>, sep: char): string
    requires parts != []
  {
    if |parts| == 1 then parts[0] else Join(parts[..|parts| - 1], sep) + [sep] + parts[|parts| - 1]
  }

  /** Splitting loses nothing, and no piece holds a separator. */
  lemma {:induction false} JoinSplit(s: string, sep: char)
    ensures Join(Split(s, sep), sep) == s
    ensures forall i :: 0 <= i < |Split(s, sep)| ==> sep !in Split(s, sep)[i]
  {
    if s != "" {
      var front := Split(s[..|s| - 1], sep);
      var c := s[|s| - 1];
      var parts := Split(s, sep);
      JoinSplit(s[..|s| - 1], sep);
      assert s == s[..|s| - 1] + [c];
      if c == sep {
        assert parts[..|parts| - 1] == front;
      } else {
        assert parts[..|parts| - 1] == front[..|front| - 1];
        if |front| > 1 {
          assert Join(parts, sep) == Join(front[..|front| - 1], sep) + [sep] + (front[|front| - 1] + [c]);
        }
      }
    }
  }

  lemma {:induction false} SplitWord(w: string, sep: char)
    requires sep !in w
    ensures Split(w, sep) == [w]
  {
    if w != "" {
      SplitWord(w[..|w| - 1], sep);
      assert w == w[..|w| - 1] + [w[|w| - 1]];
    }
  }

  lemma {:induction false} SplitLast(s: string, w: string, sep: char)
    requires sep !in w
    ensures Split(s + [sep] + w, sep) == Split(s, sep) + [w]
  {
    var t := s + [sep] + w;
    if w == "" {
      assert t[..|t| - 1] == s;
    } else {
      SplitLast(s, w[..|w| - 1], sep);
      assert t[..|t| - 1] == s + [sep] + w[..|w| - 1];
      assert w == w[..|w| - 1] + [w[|w| - 1]];
    }
  }
}

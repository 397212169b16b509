/** The string helpers of psi.templates.js that templates mix in: the query
    of a URI or label wrapped in a `<note>`, labels cut to 50 characters, and
    response headers printed one per line. */
module PsiTemplates {
  import opened Wrappers
  import opened Text
  import opened Json

  /** The characters a regular expression's `.` does not match. */
  predicate LineTerminator(c: char)
  {
    c == '\n' || c == '\r' || c == '\U{2028}' || c == '\U{2029}'
  }

  /** A text with no line terminator in it. */
  predicate OneLine(s: string)
  {
    forall k | 0 <= k < |s| :: !LineTerminator(s[k])
  }

  /** Where the line holding position `i` ends: the first line terminator at
      or after `i`, else the end of `s`. */
  function LineEnd(s: string, i: nat): (j: nat)
    requires i <= |s|
    ensures i <= j <= |s|
    ensures forall k | i <= k < j :: !LineTerminator(s[k])
    ensures j < |s| ==> LineTerminator(s[j])
    decreases |s| - i
  {
    if i == |s| || LineTerminator(s[i]) then i else LineEnd(s, i + 1)
  }

  /** `s.replace(/(\?.*)/, '<note>$1</note>')`: from the first `?` to the end
      of its line, wrapped in a note. */
  function NoteQuery(s: string): string
  {
    match IndexOf(s, '?')
    case None => s
    case Some(i) =>
      var j := LineEnd(s, i);
      s[..i] + "<note>" + s[i..j] + "</note>" + s[j..]
  }

  /** Wrapping the query adds exactly the two tags: nothing changes without a
      `?`; otherwise the note holds the text from the first `?` to the end of
      its line, so that in a one-line text it runs to the end. */
  lemma NoteQueryWraps(s: string)
    ensures '?' !in s ==> NoteQuery(s) == s
    ensures '?' in s ==>
              var i := IndexOf(s, '?').value;
              var j := LineEnd(s, i);
              NoteQuery(s) == s[..i] + "<note>" + s[i..j] + "</note>" + s[j..]
    ensures '?' in s && OneLine(s) ==>
              var i := IndexOf(s, '?').value;
              NoteQuery(s) == s[..i] + "<note>" + s[i..] + "</note>"
    ensures |NoteQuery(s)| == if '?' in s then |s| + 13 else |s|
    ensures '?' in s ==>
              var i := IndexOf(s, '?').value;
              StartsWith(NoteQuery(s), s[..i] + "<note>?")
    ensures '?' in s && (forall k | 0 <= k < |s| :: !LineTerminator(s[k])) ==>
              EndsWith(NoteQuery(s), "</note>")
  {
    if '?' in s {
      var i := IndexOf(s, '?').value;
      NoteAt(s, i, LineEnd(s, i));
      if OneLine(s) {
        assert LineEnd(s, i) == |s|;
        assert s[|s|..] == [];
        assert s[i..|s|] == s[i..];
      }
    }
  }

  /** The note opened at `i` and closed at `j`, where `j` is the end of the
      text when no line ends in it. */
  lemma NoteAt(s: string, i: nat, j: nat)
    requires i < j <= |s| && s[i] == '?'
    requires j < |s| ==> LineTerminator(s[j])
    ensures |s[..i] + "<note>" + s[i..j] + "</note>" + s[j..]| == |s| + 13
    ensures StartsWith(s[..i] + "<note>" + s[i..j] + "</note>" + s[j..], s[..i] + "<note>?")
    ensures (forall k | 0 <= k < |s| :: !LineTerminator(s[k])) ==>
              EndsWith(s[..i] + "<note>" + s[i..j] + "</note>" + s[j..], "</note>")
  {
    NoteShape(s[..i], s[i..j], s[j..]);
  }

  /** The shape of a text with its middle part wrapped in a note. */
  lemma NoteShape(a: string, q: string, b: string)
    requires q != [] && q[0] == '?'
    ensures |a + "<note>" + q + "</note>" + b| == |a| + |q| + |b| + 13
    ensures StartsWith(a + "<note>" + q + "</note>" + b, a + "<note>?")
    ensures b == [] ==> EndsWith(a + "<note>" + q + "</note>" + b, "</note>")
  {
    var r := a + "<note>" + q + "</note>" + b;
    assert r[..|a| + 7] == a + "<note>?" by {
      assert forall k | 0 <= k < |a| :: r[k] == a[k];
      assert forall k | |a| <= k < |a| + 6 :: r[k] == "<note>"[k - |a|];
    }
    if b == [] {
      assert r == (a + "<note>" + q) + "</note>";
    }
  }

  /** The label as `queryAsNote` shows it before wrapping: labels of 50
      characters or more are cut to 50 and marked with "...". */
  function Truncated(uriLabel: string): (r: string)
    ensures |uriLabel| < 50 ==> r == uriLabel
    ensures |uriLabel| >= 50 ==> |r| == 53 && r[..50] == uriLabel[..50] && r[50..] == "..."
  {
    if |uriLabel| < 50 then uriLabel else uriLabel[..50] + "..."
  }

  /** `queryAsNote(uriLabel)`. */
  function QueryAsNote(uriLabel: string): (r: string)
    ensures |uriLabel| < 50 && '?' !in uriLabel ==> r == uriLabel
    ensures |r| <= 66
  {
    NoteQueryWraps(Truncated(uriLabel));
    NoteQuery(Truncated(uriLabel))
  }

  /** Where `/\?.*$/` can match: a `?` whose line runs to the end of the text. */
  predicate QueryStart(h: string, k: nat)
  {
    k < |h| && h[k] == '?' && LineEnd(h, k) == |h|
  }

  /** `hideThis.replace(/\?.*$/, '')`: the text is cut at the first `?` whose
      line runs to the end of the text, and kept whole when there is none. */
  function StripQuery(h: string): (r: string)
    ensures '?' !in h ==> r == h
    ensures |r| <= |h| && r == h[..|r|]
    ensures r == h <==> forall k | 0 <= k < |h| :: !QueryStart(h, k)
    ensures r != h ==> QueryStart(h, |r|) && forall k | 0 <= k < |r| :: !QueryStart(h, k)
  {
    StripQueryFrom(h, 0)
  }

  /** The search for that `?` from position `i` on. */
  function StripQueryFrom(h: string, i: nat): (r: string)
    requires i <= |h|
    ensures ('?' !in h[i..]) ==> r == h
    ensures |r| <= |h| && r == h[..|r|]
    ensures r == h <==> forall k | i <= k < |h| :: !QueryStart(h, k)
    ensures r != h ==> i <= |r| && QueryStart(h, |r|) && forall k | i <= k < |r| :: !QueryStart(h, k)
    decreases |h| - i
  {
    if i == |h| then h
    else if h[i] == '?' && LineEnd(h, i) == |h| then
      assert QueryStart(h, i);
      h[..i]
    else StripQueryFrom(h, i + 1)
  }

  /** A one-line `hideThis` is cut exactly at its first `?`. */
  lemma StripQueryOneLine(h: string)
    requires '?' in h && OneLine(h)
    ensures StripQuery(h) == h[..IndexOf(h, '?').value]
  {
    var i := IndexOf(h, '?').value;
    assert QueryStart(h, i);
  }

  /** `makeViewableURI(uri, hideThis)`: a non-empty `hideThis`, stripped of
      its query, is removed (first occurrence, with a trailing `/`) before
      the query is wrapped. */
  function MakeViewableURI(uri: string, hideThis: Option<string>): (r: string)
    ensures hideThis.None? || hideThis == Some([]) ==> r == NoteQuery(uri)
  {
    NoteQuery(WithoutHidden(uri, HiddenPrefix(hideThis)))
  }

  /** `hideThis` without its query; empty when `hideThis` is falsy. */
  function HiddenPrefix(hideThis: Option<string>): string
  {
    if hideThis.Some? && hideThis.value != [] then StripQuery(hideThis.value) else []
  }

  /** `uri.replace(prefix + '/', '')` for a non-empty `prefix`. */
  function WithoutHidden(uri: string, prefix: string): string
  {
    if prefix == [] then uri else ReplaceFirst(uri, prefix + "/", [])
  }

  /** A URI that starts with a query-free `hideThis` and a slash loses
      exactly that prefix before its query is wrapped. */
  lemma MakeViewableURIHides(uri: string, hideThis: string)
    requires hideThis != [] && '?' !in hideThis && StartsWith(uri, hideThis + "/")
    ensures MakeViewableURI(uri, Some(hideThis)) == NoteQuery(uri[|hideThis| + 1..])
  {
    assert HiddenPrefix(Some(hideThis)) == hideThis;
    ReplaceFirstAtStart(uri, hideThis + "/");
  }

  /** The query of `hideThis` plays no part: `hideThis?query` hides what
      `hideThis` hides, when the query is on one line. */
  lemma MakeViewableURIIgnoresQuery(uri: string, hideThis: string, query: string)
    requires hideThis != [] && '?' !in hideThis && OneLine(query)
    ensures MakeViewableURI(uri, Some(hideThis + "?" + query)) == MakeViewableURI(uri, Some(hideThis))
  {
    var h := hideThis + "?" + query;
    var n := |hideThis|;
    assert h[n] == '?';
    assert LineEnd(h, n) == |h| by {
      forall k | n < k < |h|
        ensures !LineTerminator(h[k])
      {
        assert h[k] == query[k - n - 1];
      }
      LineEndOfFree(h, n);
    }
    assert QueryStart(h, n);
    var r := StripQuery(h);
    assert r != h;
    assert |r| == n;
    assert r == h[..n] == hideThis;
  }

  /** A line with no terminator after `i` runs from `i` to the end. */
  lemma {:induction false} LineEndOfFree(s: string, i: nat)
    requires i < |s|
    requires forall k | i < k < |s| :: !LineTerminator(s[k])
    requires !LineTerminator(s[i])
    ensures LineEnd(s, i) == |s|
    decreases |s| - i
  {
    if i + 1 < |s| {
      LineEndOfFree(s, i + 1);
    }
  }

  /** A query-free `hideThis` followed by a slash is removed where it first
      occurs, wherever that is. */
  lemma MakeViewableURIRemovesFirst(uri: string, hideThis: string, j: nat)
    requires hideThis != [] && '?' !in hideThis
    requires j <= |uri| && StartsWith(uri[j..], hideThis + "/")
    requires forall k | 0 <= k < j :: !StartsWith(uri[k..], hideThis + "/")
    ensures MakeViewableURI(uri, Some(hideThis)) == NoteQuery(uri[..j] + uri[j + |hideThis| + 1..])
  {
    var p := hideThis + "/";
    assert |p| == |hideThis| + 1;
    var w := uri[..j] + uri[j + |p|..];
    assert w == uri[..j] + uri[j + |hideThis| + 1..];
    HiddenPrefixQueryFree(hideThis);
    ReplaceFirstAt(uri, p, j);
    assert WithoutHidden(uri, hideThis) == w;
    assert MakeViewableURI(uri, Some(hideThis)) == NoteQuery(w);
  }

  /** A non-empty `hideThis` without `?` is its own hidden prefix. */
  lemma HiddenPrefixQueryFree(hideThis: string)
    requires hideThis != [] && '?' !in hideThis
    ensures HiddenPrefix(Some(hideThis)) == hideThis
  {
  }

  /** Replacing the first occurrence of `p`, found at `j`, by nothing cuts it out there. */
  lemma ReplaceFirstAt(s: string, p: string, j: nat)
    requires j <= |s| && StartsWith(s[j..], p)
    requires forall k | 0 <= k < j :: !StartsWith(s[k..], p)
    ensures ReplaceFirst(s, p, []) == s[..j] + s[j + |p|..]
  {
    FindIsFirst(s, p, j);
    assert s[..j] + [] == s[..j];
  }

  /** A URI in which a query-free `hideThis` and a slash never occur only
      has its query wrapped. */
  lemma MakeViewableURIHidesNothing(uri: string, hideThis: string)
    requires hideThis != [] && '?' !in hideThis
    requires forall k | 0 <= k <= |uri| :: !StartsWith(uri[k..], hideThis + "/")
    ensures MakeViewableURI(uri, Some(hideThis)) == NoteQuery(uri)
  {
    assert HiddenPrefix(Some(hideThis)) == hideThis;
    FindAbsent(uri, hideThis + "/");
  }

  /** Replacing a prefix by nothing drops it. */
  lemma ReplaceFirstAtStart(s: string, p: string)
    requires StartsWith(s, p)
    ensures ReplaceFirst(s, p, []) == s[|p|..]
  {
    assert Find(s, p) == Some(0);
    assert s[..0] + [] == [];
  }

  /** The lines `ppHeader(obj)` prints: `key: value` per top-level property. */
  function HeaderLines(obj: JSON): (lines: seq<string>)
    ensures |lines| == |Entries(obj)|
    ensures forall i | 0 <= i < |lines| :: lines[i] == Entries(obj)[i].0 + ": " + ToText(Entries(obj)[i].1)
  {
    var es := Entries(obj);
    seq(|es|, i requires 0 <= i < |es| => es[i].0 + ": " + ToText(es[i].1))
  }

  /** `ppHeader(obj)`. */
  function PpHeader(obj: JSON): string
  {
    Join(HeaderLines(obj), "\n")
  }

  /** Splitting the printed header at its newlines gives back one line per
      property, in order, as long as no key or value holds a newline. */
  lemma PpHeaderLines(obj: JSON)
    requires Entries(obj) != []
    requires forall i | 0 <= i < |Entries(obj)| :: '\n' !in Entries(obj)[i].0 && '\n' !in ToText(Entries(obj)[i].1)
    ensures Split(PpHeader(obj), '\n') == HeaderLines(obj)
  {
    var lines := HeaderLines(obj);
    forall i | 0 <= i < |lines|
      ensures '\n' !in lines[i]
    {
      assert lines[i] == Entries(obj)[i].0 + ": " + ToText(Entries(obj)[i].1);
    }
    SplitJoin(lines, '\n');
  }
}

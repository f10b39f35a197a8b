/** The inline Markdown links of a schema description, as the mapping sheet
    finds them with the pattern `\[([^\]]+)\]\(([^)]+)\)`: a text without
    `]` and a URL without `)`, both non-empty. The scanner below stands in
    for the regular-expression engine. */
module MarkdownLinks {
  import opened Outcomes
  import opened Strings

  /** A link's text and URL. */
  datatype Link = Link(text: string, url: string)

  /** The Markdown form of a link. */
  function Markup(link: Link): string {
    "[" + link.text + "](" + link.url + ")"
  }

  /** The first `c` in `s` at or after `from`. */
  function IndexOf(s: string, c: char, from: nat): (r: Option<nat>)
    ensures r.Some? ==> from <= r.value < |s| && s[r.value] == c && forall k :: from <= k < r.value ==> s[k] != c
    ensures r.None? ==> forall k :: from <= k < |s| ==> s[k] != c
    decreases |s| - from
  {
    if from >= |s| then None
    else if s[from] == c then Some(from)
    else IndexOf(s, c, from + 1)
  }

  /** The pattern matched at the start of `s`, with the length it spans:
      the text runs to the first `]`, which must be followed by `(`, and
      the URL to the first `)` after that. */
  function LinkAt(s: string): (r: Option<(Link, nat)>)
    ensures r.Some? ==>
              var (link, n) := r.value;
              n <= |s| && s[..n] == Markup(link) && link.text != [] && link.url != [] &&
              ']' !in link.text && ')' !in link.url
  {
    if s == [] || s[0] != '[' then None
    else
      match IndexOf(s, ']', 1)
      case None => None
      case Some(close) =>
        if close < 2 || close + 1 >= |s| || s[close + 1] != '(' then None
        else
          match IndexOf(s, ')', close + 2)
          case None => None
          case Some(end) =>
            if end < close + 3 then None
            else
              var link := Link(s[1..close], s[close + 2..end]);
              assert s[..end + 1] == "[" + link.text + "](" + link.url + ")";
              Some((link, end + 1))
  }

  /** `re.findall`: the matches from left to right, without overlap. */
  function FindLinks(s: string): seq<Link>
    decreases |s|
  {
    if s == [] then []
    else
      match LinkAt(s)
      case Some((link, n)) => [link] + FindLinks(s[n..])
      case None => FindLinks(s[1..])
  }

  /** Text without `[` holds no link and is skipped. */
  lemma {:induction false} FindLinksSkips(p: string, rest: string)
    requires '[' !in p
    ensures FindLinks(p + rest) == FindLinks(rest)
    decreases |p|
  {
    if p != [] {
      assert (p + rest)[1..] == p[1..] + rest;
      FindLinksSkips(p[1..], rest);
    } else {
      assert p + rest == rest;
    }
  }

  /** A well-formed link at the start is matched as a whole. */
  lemma LinkAtMarkup(link: Link, rest: string)
    requires link.text != [] && link.url != [] && ']' !in link.text && ')' !in link.url
    ensures LinkAt(Markup(link) + rest) == Some((link, |Markup(link)|))
  {
    var s := Markup(link) + rest;
    var close := |link.text| + 1;
    var end := close + 2 + |link.url|;
    assert s[close] == ']' && forall k :: 1 <= k < close ==> s[k] == link.text[k - 1];
    assert IndexOf(s, ']', 1) == Some(close);
    assert s[close + 1] == '(';
    assert s[end] == ')' && forall k :: close + 2 <= k < end ==> s[k] == link.url[k - close - 2];
    assert IndexOf(s, ')', close + 2) == Some(end);
    assert s[1..close] == link.text && s[close + 2..end] == link.url;
  }

  /** `dict(pairs)`: one entry per text, in the order texts first appear,
      holding the URL of the text's last link. */
  function LinkDict(links: seq<Link>): seq<Link> {
    if links == [] then []
    else Put(LinkDict(links[..|links| - 1]), links[|links| - 1])
  }

  /** Sets the entry for a link's text, in place when the text is there. */
  function Put(entries: seq<Link>, link: Link): seq<Link> {
    if entries == [] then [link]
    else if entries[0].text == link.text then [link] + entries[1..]
    else [entries[0]] + Put(entries[1..], link)
  }

  /** The links without repeats, in the order they first appear. */
  function Distinct(links: seq<Link>): seq<Link> {
    if links == [] then []
    else
      var init := Distinct(links[..|links| - 1]);
      var last := links[|links| - 1];
      if last in init then init else init + [last]
  }

  /** The URLs of the entries, in order. */
  function Urls(entries: seq<Link>): (urls: seq<string>)
    ensures |urls| == |entries|
    ensures forall k :: 0 <= k < |entries| ==> urls[k] == entries[k].url
  {
    if entries == [] then [] else Urls(entries[..|entries| - 1]) + [entries[|entries| - 1].url]
  }

  /** The description with each entry's Markdown replaced by its text, one
      entry after the other. */
  function Stripped(description: string, entries: seq<Link>): string {
    if entries == [] then description
    else
      var last := entries[|entries| - 1];
      Replace(Stripped(description, entries[..|entries| - 1]), Markup(last), last.text)
  }

  /** The replacement loop over the link entries. */
  method StripLinks(description: string, entries: seq<Link>) returns (stripped: string)
    ensures stripped == Stripped(description, entries)
  {
    stripped := description;
    for i := 0 to |entries|
      invariant stripped == Stripped(description, entries[..i])
    {
      assert entries[..i + 1][..i] == entries[..i];
      stripped := Replace(stripped, Markup(entries[i]), entries[i].text);
    }
    assert entries[..|entries|] == entries;
  }

  /** The `description` column as written: the links are keyed by text. */
  function DescriptionAsWritten(description: string): string {
    Stripped(description, LinkDict(FindLinks(description)))
  }

  /** The `links` column as written. */
  function LinksAsWritten(description: string): string {
    Join(Urls(LinkDict(FindLinks(description))), ", ")
  }

  /** The `description` column: every distinct link is replaced by its
      text. */
  function DescriptionColumn(description: string): string {
    Stripped(description, Distinct(FindLinks(description)))
  }

  /** The `links` column: the URL of every distinct link. */
  function LinksColumn(description: string): string {
    Join(Urls(Distinct(FindLinks(description))), ", ")
  }

  /** A link at the start is found, and the search goes on after it. */
  lemma FindLinksMarkup(link: Link, rest: string)
    requires link.text != [] && link.url != [] && ']' !in link.text && ')' !in link.url
    ensures FindLinks(Markup(link) + rest) == [link] + FindLinks(rest)
  {
    LinkAtMarkup(link, rest);
    assert (Markup(link) + rest)[|Markup(link)|..] == rest;
  }

  /** Stripping one entry is one replacement. */
  lemma StrippedOne(description: string, link: Link)
    ensures Stripped(description, [link]) == Replace(description, Markup(link), link.text)
  {
    assert [link][..0] == [];
  }

  /** Stripping two entries is two replacements, in order. */
  lemma StrippedTwo(description: string, first: Link, second: Link)
    ensures Stripped(description, [first, second]) ==
              Replace(Replace(description, Markup(first), first.text), Markup(second), second.text)
  {
    assert [first, second][..1] == [first];
    StrippedOne(description, first);
  }

  /** A description holding one link, with no `[` around it, loses the
      Markdown of the link and keeps its text; the link's URL is the
      `links` column. */
  lemma OneLinkStripped(before: string, link: Link, after: string)
    requires '[' !in before && '[' !in after
    requires link.text != [] && link.url != [] && ']' !in link.text && ')' !in link.url
    ensures var description := before + Markup(link) + after;
            DescriptionColumn(description) == before + link.text + after &&
            LinksColumn(description) == link.url
  {
    var description := before + Markup(link) + after;
    assert description == before + (Markup(link) + after);
    FindLinksSkips(before, Markup(link) + after);
    FindLinksMarkup(link, after);
    FindLinksSkips(after, []);
    assert after + [] == after;
    assert FindLinks(description) == [link];
    assert Distinct([link]) == [link] by {
      assert [link][..0] == [];
    }
    StrippedOne(description, link);
    ReplaceSkips(before, Markup(link) + after, Markup(link), link.text);
    ReplaceHead(Markup(link), after, link.text);
    ReplaceAbsent(after, Markup(link), link.text);
    assert Replace(description, Markup(link), link.text) == before + link.text + after;
    assert Urls([link]) == [link.url];
  }

  /** Putting a text that is not there yet appends it. */
  lemma {:induction false} PutNew(entries: seq<Link>, link: Link)
    requires forall k :: 0 <= k < |entries| ==> entries[k].text != link.text
    ensures Put(entries, link) == entries + [link]
  {
    if entries != [] {
      PutNew(entries[1..], link);
      assert [entries[0]] + (entries[1..] + [link]) == entries + [link];
    }
  }

  /** With distinct texts, keying the links by text loses nothing: the
      columns as written and the corrected ones agree. */
  lemma {:induction false} DistinctTextsAgree(links: seq<Link>)
    requires forall i, j :: 0 <= i < j < |links| ==> links[i].text != links[j].text
    ensures LinkDict(links) == links && Distinct(links) == links
  {
    if links != [] {
      var init := links[..|links| - 1];
      var last := links[|links| - 1];
      DistinctTextsAgree(init);
      PutNew(init, last);
      assert last !in init by {
        forall k | 0 <= k < |init|
          ensures init[k] != last
        {
          assert init[k].text == links[k].text;
        }
      }
      assert init + [last] == links;
    }
  }

  predicate WellFormed(link: Link) {
    link.text != [] && link.url != [] && ']' !in link.text && ')' !in link.url
  }

  /** The Markdown of a link does not start with the Markdown of another
      link of the same text. */
  lemma MarkupMismatch(first: Link, second: Link, rest: string)
    requires WellFormed(first) && WellFormed(second)
    requires first.text == second.text && first.url != second.url
    requires |Markup(first) + rest| >= |Markup(second)|
    ensures (Markup(first) + rest)[..|Markup(second)|] != Markup(second)
  {
    var s := Markup(first) + rest;
    var m := Markup(second);
    var n := |first.text| + 3;
    var u1 := first.url;
    var u2 := second.url;
    assert forall k :: 0 <= k < |u1| ==> s[n + k] == u1[k];
    assert s[n + |u1|] == ')';
    assert forall k :: 0 <= k < |u2| ==> m[n + k] == u2[k];
    assert m[n + |u2|] == ')';
    if |u1| < |u2| {
      assert s[..|m|][n + |u1|] != m[n + |u1|];
    } else if |u1| > |u2| {
      assert s[..|m|][n + |u2|] != m[n + |u2|];
    } else {
      var k :| 0 <= k < |u1| && u1[k] != u2[k];
      assert s[..|m|][n + k] != m[n + k];
    }
  }

  /** Past its opening `[`, the Markdown of a link whose text and URL hold
      no `[` holds none either. */
  lemma MarkupTail(link: Link)
    requires '[' !in link.text && '[' !in link.url
    ensures Markup(link) == "[" + Markup(link)[1..]
    ensures '[' !in Markup(link)[1..]
  {
    assert Markup(link)[1..] == link.text + "](" + link.url + ")";
  }

  /** Two well-formed links side by side are both found. */
  lemma TwoLinksFound(first: Link, second: Link)
    requires WellFormed(first) && WellFormed(second)
    ensures FindLinks(Markup(first) + Markup(second)) == [first, second]
  {
    FindLinksMarkup(first, Markup(second));
    FindLinksMarkup(second, []);
    assert Markup(second) + [] == Markup(second);
  }

  /** Keyed by text, two links with one text leave the second. */
  lemma SameTextDict(first: Link, second: Link)
    requires first.text == second.text
    ensures LinkDict([first, second]) == [second]
  {
    assert [first, second][..1] == [first];
    assert [first][..0] == [];
    assert LinkDict([first]) == [first];
    assert [first][1..] == [];
  }

  /** Two different links are both distinct. */
  lemma TwoDistinct(first: Link, second: Link)
    requires first != second
    ensures Distinct([first, second]) == [first, second]
  {
    assert [first, second][..1] == [first];
    assert [first][..0] == [];
    assert Distinct([first]) == [first];
  }

  /** Replacing the second link's Markdown leaves the first link. */
  lemma ReplaceSecond(first: Link, second: Link)
    requires WellFormed(first) && WellFormed(second)
    requires first.text == second.text && first.url != second.url
    requires '[' !in first.text && '[' !in first.url
    ensures Replace(Markup(first) + Markup(second), Markup(second), second.text) == Markup(first) + second.text
  {
    var m1, m2 := Markup(first), Markup(second);
    var description := m1 + m2;
    var tail := m1[1..];
    MarkupMismatch(first, second, m2);
    MarkupTail(first);
    assert description[0] == '[' && description[1..] == tail + m2;
    calc {
      Replace(description, m2, second.text);
      { ReplaceMiss(description, m2, second.text); }
      ['['] + Replace(tail + m2, m2, second.text);
      { ReplaceSkips(tail, m2, m2, second.text); }
      ['['] + (tail + Replace(m2, m2, second.text));
      { ReplaceWhole(m2, second.text); }
      ['['] + (tail + second.text);
      m1 + second.text;
    }
  }

  /** The whole pattern is replaced by the replacement. */
  lemma ReplaceWhole(pat: string, rep: string)
    requires pat != []
    ensures Replace(pat, pat, rep) == rep
  {
    ReplaceHead(pat, [], rep);
    assert pat + [] == pat;
  }

  /** Replacing the first link's Markdown leaves the second link. */
  lemma ReplaceFirst(first: Link, second: Link)
    requires WellFormed(first) && WellFormed(second)
    requires first.text == second.text && first.url != second.url
    requires '[' !in first.text && '[' !in second.url
    ensures Replace(Markup(first) + Markup(second), Markup(first), first.text) == first.text + Markup(second)
  {
    ReplaceHead(Markup(first), Markup(second), first.text);
    if |Markup(second)| >= |Markup(first)| {
      MarkupMismatch(second, first, []);
      assert Markup(second) + [] == Markup(second);
    }
    ReplaceMiss(Markup(second), Markup(first), first.text);
    MarkupTail(second);
    ReplaceAbsent(Markup(second)[1..], Markup(first), first.text);
  }

  /** A description made of two links with one text and two URLs: as
      written, the first link stays in the description and its URL is
      missing from the links. */
  lemma SameTextAsWritten(first: Link, second: Link)
    requires WellFormed(first) && WellFormed(second)
    requires first.text == second.text && first.url != second.url
    requires '[' !in first.text && '[' !in first.url
    ensures var description := Markup(first) + Markup(second);
            DescriptionAsWritten(description) == Markup(first) + second.text &&
            LinksAsWritten(description) == second.url
  {
    TwoLinksFound(first, second);
    SameTextDict(first, second);
    StrippedOne(Markup(first) + Markup(second), second);
    ReplaceSecond(first, second);
    assert Urls([second]) == [second.url];
  }

  /** The same description with the distinct links kept: both links become
      their text and both URLs are listed. */
  lemma SameTextCorrected(first: Link, second: Link)
    requires WellFormed(first) && WellFormed(second)
    requires first.text == second.text && first.url != second.url
    requires '[' !in first.text && '[' !in second.url
    ensures var description := Markup(first) + Markup(second);
            DescriptionColumn(description) == first.text + second.text &&
            LinksColumn(description) == first.url + ", " + second.url
  {
    var description := Markup(first) + Markup(second);
    TwoLinksFound(first, second);
    TwoDistinct(first, second);
    assert Distinct(FindLinks(description)) == [first, second];
    assert DescriptionColumn(description) == first.text + second.text by {
      StrippedTwo(description, first, second);
      ReplaceFirst(first, second);
      ReplaceSkips(first.text, Markup(second), Markup(second), second.text);
      ReplaceHead(Markup(second), [], second.text);
      assert Markup(second) + [] == Markup(second);
      assert Replace([], Markup(second), second.text) == [];
    }
    assert LinksColumn(description) == first.url + ", " + second.url by {
      assert Urls([first, second]) == [first.url, second.url];
      JoinTwo(first.url, second.url, ", ");
    }
  }
}

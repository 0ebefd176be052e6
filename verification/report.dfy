/** The report stage's context block: a header naming the query, then one Markdown section per
    result, in result order. */
module Report {
  import opened Models
  import opened Seqs

  /** How many characters of page text a section quotes. */
  const ExcerptLimit: nat := 200
  const Ellipsis: string := "..."
  /** Stands in for the excerpt when a result has no page text. */
  const Placeholder: string := "Content could not be retrieved."

  const QueryLabel: string := "**Search Query:** "
  const ResultsLabel: string := "**Search Results:**\n"
  const TitleMark: string := "### "
  const UrlLabel: string := "**URL:** "
  const SnippetLabel: string := "**Snippet:** "
  const ExcerptLabel: string := "**Content (Excerpt):** "


  /** The quoted part of a page: its first 200 characters (all of it when shorter) followed by an
      ellipsis, or the placeholder sentence when the page text is empty. */
  function Excerpt(content: string): (e: string)
    ensures content == "" ==> e == Placeholder
    ensures content != "" ==>
              |e| >= |Ellipsis|
              && e[|e| - |Ellipsis|..] == Ellipsis
              && e[..|e| - |Ellipsis|] <= content
              && |e| - |Ellipsis| <= ExcerptLimit
              && (|content| <= ExcerptLimit ==> e[..|e| - |Ellipsis|] == content)
              && (|content| >= ExcerptLimit ==> |e| - |Ellipsis| == ExcerptLimit)
  {
    if content != "" then
      content[..Min(|content|, ExcerptLimit)] + Ellipsis
    else
      Placeholder
  }

  /** The opening of the context: the query line and the results heading. */
  function Header(query: string): string
  {
    QueryLabel + query + "\n\n" + ResultsLabel
  }

  /** The four lines of a result's section. */
  datatype Field = TitleField | UrlField | SnippetField | ExcerptField

  /** The text that opens a field's line. */
  function FieldLabel(f: Field): string
  {
    match f
    case TitleField => TitleMark
    case UrlField => UrlLabel
    case SnippetField => SnippetLabel
    case ExcerptField => ExcerptLabel
  }

  /** The text a line shows: the record's own value, or the excerpt of its content. */
  function FieldText(r: SearchResult, f: Field): string
  {
    match f
    case TitleField => r.title
    case UrlField => r.url
    case SnippetField => r.snippet
    case ExcerptField => Excerpt(r.content)
  }

  /** The line breaks that close a field's line: one after the title heading, two elsewhere. */
  function FieldEnd(f: Field): string
  {
    if f == TitleField then "\n" else "\n\n"
  }

  function Line(r: SearchResult, f: Field): string
  {
    FieldLabel(f) + FieldText(r, f) + FieldEnd(f)
  }

  /** One result's section: title heading, url, snippet and excerpt lines, in that order. */
  function Section(r: SearchResult): string
  {
    Line(r, TitleField) + Line(r, UrlField) + Line(r, SnippetField) + Line(r, ExcerptField)
  }

  /** Where a field's line starts within its section: after the lines before it. */
  function LineStart(r: SearchResult, f: Field): nat
  {
    match f
    case TitleField => 0
    case UrlField => |Line(r, TitleField)|
    case SnippetField => |Line(r, TitleField)| + |Line(r, UrlField)|
    case ExcerptField => |Line(r, TitleField)| + |Line(r, UrlField)| + |Line(r, SnippetField)|
  }

  /** The context block handed to the report prompt: the header, then the sections appended one
      by one as the report loop does. */
  function Context(query: string, rs: seq<SearchResult>): (ctx: string)
    ensures Header(query) <= ctx
    ensures rs == [] ==> ctx == Header(query)
  {
    Header(query) + Flatten(MapSeq(Section, rs))
  }

  /** Adding one more result appends exactly its section. */
  lemma {:induction false} ContextSnoc(query: string, rs: seq<SearchResult>, r: SearchResult)
    ensures Context(query, rs + [r]) == Context(query, rs) + Section(r)
  {
    MapSeqSnoc(Section, rs, r);
    FlattenSnoc(MapSeq(Section, rs), Section(r));
    AppendAssoc(Header(query), Flatten(MapSeq(Section, rs)), Section(r));
  }

  /** The context of the first j results is a prefix of the context of all of them. */
  lemma {:induction false} ContextPrefix(query: string, rs: seq<SearchResult>, j: nat)
    requires j <= |rs|
    ensures Context(query, rs[..j]) <= Context(query, rs)
  {
    MapSeqPrefix(Section, rs, j);
    FlattenPrefix(MapSeq(Section, rs), j);
  }

  /** Result i's section starts right where the context of results 0..i-1 ends: sections come in
      result order, each exactly once. */
  lemma {:induction false} SectionInOrder(query: string, rs: seq<SearchResult>, i: nat)
    requires i < |rs|
    ensures ContainsAt(Context(query, rs), Section(rs[i]), |Context(query, rs[..i])|)
  {
    var sections := MapSeq(Section, rs);
    MapSeqPrefix(Section, rs, i);
    FlattenBlockPrefix(sections, i);
    PrependKeepsPrefix(Header(query), Flatten(sections[..i]) + sections[i], Flatten(sections));
    AppendAssoc(Header(query), Flatten(sections[..i]), sections[i]);
    PrefixThenBlock(Context(query, rs), Context(query, rs[..i]), Section(rs[i]));
  }

  /** Each line of a section starts where the lines before it end. */
  lemma {:induction false} SectionLines(r: SearchResult, f: Field)
    ensures ContainsAt(Section(r), Line(r, f), LineStart(r, f))
  {
    var a, b, c, d := Line(r, TitleField), Line(r, UrlField), Line(r, SnippetField), Line(r, ExcerptField);
    ConcatParts(a + b, c, d);
    if f == TitleField || f == UrlField {
      ConcatParts(a, b, []);
      assert a + b + [] == a + b;
      ContainsAtTrans(Section(r), a + b, Line(r, f), 0, LineStart(r, f));
    }
  }

  /** Each field's text sits inside its section right after the field's label. */
  lemma {:induction false} SectionShowsField(r: SearchResult, f: Field)
    ensures ContainsAt(Section(r), FieldText(r, f), LineStart(r, f) + |FieldLabel(f)|)
  {
    SectionLines(r, f);
    TaggedValue(Section(r), LineStart(r, f), FieldLabel(f), FieldText(r, f), FieldEnd(f));
  }

  /** Whatever occurs in result i's section occurs in the context, shifted by the length of the
      context of results 0..i-1. */
  lemma {:induction false} InSectionInContext(query: string, rs: seq<SearchResult>, i: nat, v: string, off: int)
    requires i < |rs|
    requires ContainsAt(Section(rs[i]), v, off)
    ensures ContainsAt(Context(query, rs), v, |Context(query, rs[..i])| + off)
  {
    SectionInOrder(query, rs, i);
    ContainsAtTrans(Context(query, rs), Section(rs[i]), v, |Context(query, rs[..i])|, off);
  }

  /** The query occurs in the header, right after its label. */
  lemma {:induction false} HeaderShowsQuery(query: string)
    ensures ContainsAt(Header(query), query, |QueryLabel|)
  {
    assert Header(query) == QueryLabel + query + ("\n\n" + ResultsLabel);
    ConcatParts(QueryLabel, query, "\n\n" + ResultsLabel);
  }

  /** The query occurs in the context, right after its label. */
  lemma {:induction false} ContextShowsQuery(query: string, rs: seq<SearchResult>)
    ensures ContainsAt(Context(query, rs), query, |QueryLabel|)
  {
    HeaderShowsQuery(query);
    PrefixContains(Context(query, rs), Header(query), query, |QueryLabel|);
  }
}

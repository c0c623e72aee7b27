/**
 * `exportChapter` and `exportChapters`: the text of the exported blob and its MIME type. The blob
 * itself is the pair of the two.
 */
module ChapterExport {
  import opened Strings
  import opened Seqs
  import opened ChapterList

  datatype Format = Txt | Md

  /** The exported content and its MIME type. */
  datatype Export = Export(content: string, mimeType: string)

  function MimeType(format: Format): (m: string)
    ensures m == "text/markdown" <==> format == Md
    ensures format == Txt ==> m == "text/plain"
  {
    if format == Md then "text/markdown" else "text/plain"
  }

  /** One chapter as text: a Markdown heading for `md`, the bare title for `txt`, then a blank line. */
  function ChapterText(chapter: Chapter, format: Format): (t: string)
    ensures format == Md ==> t == "# " + chapter.title + "\n\n" + chapter.content
    ensures format == Txt ==> t == chapter.title + "\n\n" + chapter.content
  {
    (if format == Md then "# " else "") + chapter.title + "\n\n" + chapter.content
  }

  function Separator(format: Format): string
  {
    if format == Md then "\n\n---\n\n" else "\n\n==========\n\n"
  }

  /** `exportChapter` */
  function ExportChapter(chapter: Chapter, format: Format): (e: Export)
    ensures e.content == ChapterText(chapter, format) && e.mimeType == MimeType(format)
  {
    Export(ChapterText(chapter, format), MimeType(format))
  }

  /** The texts of the chapters, in list order. */
  function Texts(chapters: seq<Chapter>, format: Format): (r: seq<string>)
    ensures |r| == |chapters|
    ensures forall i :: 0 <= i < |r| ==> r[i] == ChapterText(chapters[i], format)
  {
    seq(|chapters|, i requires 0 <= i < |chapters| => ChapterText(chapters[i], format))
  }

  /**
   * `exportChapters`: a copy of the list sorted by `order` ascending (the input is a value and is
   * not changed), each chapter's text, joined by the format's separator.
   */
  function ExportChapters(chapters: seq<Chapter>, format: Format): (e: Export)
    ensures e.mimeType == MimeType(format)
    ensures chapters == [] ==> e.content == ""
    ensures exists sorted: seq<Chapter> ::
      && multiset(sorted) == multiset(chapters)
      && (forall i, j :: 0 <= i < j < |sorted| ==> sorted[i].order <= sorted[j].order)
      && (forall k :: WithKey(sorted, SortKey(ByOrder), k) == WithKey(chapters, SortKey(ByOrder), k))
      && e.content == Join(Texts(sorted, format), Separator(format))
  {
    var sorted := SortedChapters(chapters, ByOrder);
    Export(Join(Texts(sorted, format), Separator(format)), MimeType(format))
  }

  /** The export does not depend on the order of its input: sorting first changes nothing. */
  lemma ExportSortsFirst(chapters: seq<Chapter>, format: Format)
    ensures ExportChapters(SortedChapters(chapters, ByOrder), format) == ExportChapters(chapters, format)
  {
    var sorted := SortedChapters(chapters, ByOrder);
    SortBySortedInput(sorted, SortKey(ByOrder));
  }

  /** Exporting one chapter as a list gives the single-chapter export. */
  lemma ExportOne(chapter: Chapter, format: Format)
    ensures ExportChapters([chapter], format) == ExportChapter(chapter, format)
  {
    assert SortedChapters([chapter], ByOrder) == [chapter] by {
      SortBySortedInput([chapter], SortKey(ByOrder));
    }
  }

  /** Exporting a list whose chapters are already in order appends one more separator and text per chapter. */
  lemma ExportSnoc(chapters: seq<Chapter>, last: Chapter, format: Format)
    requires chapters != []
    requires forall i, j :: 0 <= i < j < |chapters| ==> chapters[i].order <= chapters[j].order
    requires forall i :: 0 <= i < |chapters| ==> chapters[i].order <= last.order
    ensures ExportChapters(chapters + [last], format).content
      == ExportChapters(chapters, format).content + Separator(format) + ChapterText(last, format)
  {
    var all := chapters + [last];
    SortBySortedInput(all, SortKey(ByOrder));
    SortBySortedInput(chapters, SortKey(ByOrder));
    assert Texts(all, format) == Texts(chapters, format) + [ChapterText(last, format)];
    JoinSnoc(Texts(chapters, format), ChapterText(last, format), Separator(format));
  }
}

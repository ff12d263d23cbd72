/**
 * The document the reporter writes into. A document is an append-only
 * sequence of chapters; a chapter holds its heading, the elements added to it
 * directly, and its sections; a section holds the elements added to it, in
 * order. Fonts, colours, widths and images are not represented; a tendency
 * icon is represented by the pair of tendencies it is chosen from.
 */
module Document {

  /** The (qualitative, quantitative) pair a tendency icon is chosen from. */
  datatype Tendency = Tendency(qualitative: int, quantitative: int)

  /** One cell of a borderless dashboard row. */
  datatype Cell =
      /** A metric title, its value with a tendency icon, and annotation lines under it. */
    | Indicator(title: string, value: string, tendency: Tendency, notes: seq<string>)
      /** An issue-detail block: header, value, tendency icon and a signed delta. */
    | IssueDetail(header: string, value: string, tendency: Tendency, delta: string)
    | Blank

  datatype Element =
    | Paragraph(text: string)
    | Newline
    | Row(cells: seq<Cell>)
      /** A two-column ranking table, with the message shown when it has no entries. */
    | SimpleTable(title: string, emptyText: string, left: seq<string>, right: seq<string>)

  /** A finished section: its title and its elements. */
  datatype SectionBlock = SectionBlock(title: string, elements: seq<Element>)

  /** A finished chapter: its heading, its leading elements and its sections. */
  datatype ChapterBlock = ChapterBlock(title: string, intro: seq<Element>, sections: seq<SectionBlock>)

  /** A section being filled in. */
  class Section {
    const title: string
    var elements: seq<Element>

    constructor (title: string)
      ensures this.title == title && elements == []
    {
      this.title := title;
      elements := [];
    }

    method Add(e: Element)
      modifies this
      ensures elements == old(elements) + [e]
    {
      elements := elements + [e];
    }

    function Contents(): SectionBlock
      reads this
    {
      SectionBlock(title, elements)
    }
  }

  /** The document body: the chapters added so far, in order. */
  class Document {
    var chapters: seq<ChapterBlock>

    constructor ()
      ensures chapters == []
    {
      chapters := [];
    }

    method Add(c: ChapterBlock)
      modifies this
      ensures chapters == old(chapters) + [c]
    {
      chapters := chapters + [c];
    }
  }
}

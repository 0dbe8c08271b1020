/** The comprehensive-results table of src/components/SaasAnalysisResultsTable.tsx:
    the set of expanded rows, the export guard, and what each cell shows. */
module ResultsTable {
  import opened Wrappers
  import opened Text
  import opened Tiers

  const IdeaCellLength: nat := 150
  const TextCellLength: nat := 120
  const ShownCompetitors: nat := 3

  /** The competitors field: a list, or a single string. */
  datatype Competitors = One(name: string) | Many(names: seq<string>)

  /** One row of the table. */
  datatype Row = Row(
    id: string,
    idea: string,
    targetAudience: string,
    problemsSolved: string,
    proposedSolution: string,
    competitors: Competitors,
    scalability: string,
    profitModel: string,
    innovationLevel: string,
    overallRating: int,
    timestamp: string)

  /** The columns, in `TABLE_COLUMNS` order. */
  datatype Column = Idea | TargetAudience | ProblemsSolved | ProposedSolution
                  | CompetitorsColumn | Scalability | ProfitModel | InnovationLevel | OverallRating

  /** What a cell renders: a paragraph (with the date under the idea), the
      competitor badges with the count of those left out, a coloured level
      badge, or the coloured rating. */
  datatype Cell =
    | Paragraph(text: string, date: Option<string>)
    | Badges(shown: seq<string>, more: Option<nat>)
    | LevelBadge(level: string, color: string)
    | RatingBox(rating: int, color: string)

  // ------------------------------------------------------- expanded rows

  /** The set after `toggleRowExpansion(id)`. */
  function Toggled(rows: set<string>, id: string): (r: set<string>)
    ensures id in r <==> id !in rows
    ensures forall other :: other != id ==> (other in r <==> other in rows)
  {
    if id in rows then rows - {id} else rows + {id}
  }

  /** Toggling the same row twice restores the set. */
  lemma ToggleTwice(rows: set<string>, id: string)
    ensures Toggled(Toggled(rows, id), id) == rows
  {
  }

  /** Toggling two different rows gives the same set in either order. */
  lemma TogglesCommute(rows: set<string>, a: string, b: string)
    ensures Toggled(Toggled(rows, a), b) == Toggled(Toggled(rows, b), a)
  {
  }

  datatype Toast = NoDataToExport | ExportSuccessful | ExportFailed

  /** The table's state: the expanded rows, the exporting flag and, standing
      for the PDF files produced, the list of exported result lists. */
  class Table {
    var expandedRows: set<string>
    var isExporting: bool
    var exported: seq<seq<Row>>

    constructor ()
      ensures expandedRows == {} && !isExporting && exported == []
    {
      expandedRows := {};
      isExporting := false;
      exported := [];
    }

    /** A copy of the set gains or loses `id` and then replaces it. */
    method ToggleRowExpansion(id: string)
      modifies this
      ensures expandedRows == Toggled(old(expandedRows), id)
      ensures isExporting == old(isExporting) && exported == old(exported)
    {
      var newExpanded := expandedRows;
      if id in newExpanded {
        newExpanded := newExpanded - {id};
      } else {
        newExpanded := newExpanded + {id};
      }
      expandedRows := newExpanded;
    }

    /** `handleExportToPdf`: an empty table is refused with a notice and
      nothing else happens; otherwise the export runs (it may fail) and the
      exporting flag is cleared at the end. */
    method HandleExportToPdf(results: seq<Row>, exportFails: bool) returns (toast: Toast)
      modifies this
      ensures |results| == 0 ==> toast == NoDataToExport && exported == old(exported)
                                 && isExporting == old(isExporting)
      ensures |results| > 0 ==> !isExporting
      ensures |results| > 0 && exportFails ==> toast == ExportFailed && exported == old(exported)
      ensures |results| > 0 && !exportFails ==> toast == ExportSuccessful && exported == old(exported) + [results]
      ensures expandedRows == old(expandedRows)
    {
      if |results| == 0 {
        return NoDataToExport;
      }
      isExporting := true;
      if exportFails {
        toast := ExportFailed;
      } else {
        exported := exported + [results];
        toast := ExportSuccessful;
      }
      isExporting := false;
    }
  }

  // ---------------------------------------------------------------- cells

  /** `getRatingColor`. */
  function RatingColor(rating: int): string {
    match TierOf(rating)
    case High => "text-green-700 bg-green-100"
    case Medium => "text-yellow-700 bg-yellow-100"
    case Low => "text-red-700 bg-red-100"
  }

  /** Two ratings share a colour exactly when they share a band: 80 and
      above, 60 to 79, below 60. */
  lemma RatingColorBands(a: int, b: int)
    ensures RatingColor(a) == RatingColor(b) <==> TierOf(a) == TierOf(b)
  {
    assert |RatingColor(80)| == 27 && |RatingColor(60)| == 29 && |RatingColor(0)| == 23;
  }

  /** `getInnovationLevelColor`, over the English level names. */
  function LevelColor(level: string): (color: string)
    ensures level == "High" ==> color == BadgeColor(High)
    ensures level == "Medium" ==> color == BadgeColor(Medium)
    ensures level == "Low" ==> color == BadgeColor(Low)
    ensures level !in {"High", "Medium", "Low"} ==> color == NeutralBadge
  {
    if level == "High" then BadgeColor(High)
    else if level == "Medium" then BadgeColor(Medium)
    else if level == "Low" then BadgeColor(Low)
    else NeutralBadge
  }

  /** The competitors as the list the cell renders from. */
  function CompetitorList(c: Competitors): (names: seq<string>)
    ensures c.One? ==> names == [c.name]
    ensures c.Many? ==> names == c.names
  {
    match c
    case One(name) => [name]
    case Many(names) => names
  }

  /** The first three competitors as badges and, when there are more, how
      many were left out. */
  function CompetitorBadges(names: seq<string>): (c: Cell)
    ensures c.Badges?
    ensures |c.shown| <= ShownCompetitors && c.shown <= names
    ensures c.more.Some? <==> |names| > ShownCompetitors
    ensures |c.shown| + c.more.GetOr(0) == |names|
  {
    if |names| > ShownCompetitors then Badges(names[..ShownCompetitors], Some(|names| - ShownCompetitors))
    else Badges(names, None)
  }

  /** `renderCellContent`: the idea cut at 150 with the date under it, the
      competitor badges, the level badge, the rating box, and every other
      text cut at 120. */
  function RenderCell(row: Row, column: Column): (c: Cell)
    ensures c.Paragraph? <==> TextField(row, column).Some?
    ensures c.Paragraph? ==> |c.text| <= IdeaCellLength + 3
    ensures column == CompetitorsColumn ==> c == CompetitorBadges(CompetitorList(row.competitors))
    ensures column == InnovationLevel ==> c == LevelBadge(row.innovationLevel, LevelColor(row.innovationLevel))
    ensures column == OverallRating ==> c == RatingBox(row.overallRating, RatingColor(row.overallRating))
  {
    match column
    case Idea => Paragraph(Truncate(row.idea, IdeaCellLength), Some(row.timestamp))
    case TargetAudience => Paragraph(Truncate(row.targetAudience, TextCellLength), None)
    case ProblemsSolved => Paragraph(Truncate(row.problemsSolved, TextCellLength), None)
    case ProposedSolution => Paragraph(Truncate(row.proposedSolution, TextCellLength), None)
    case CompetitorsColumn => CompetitorBadges(CompetitorList(row.competitors))
    case Scalability => Paragraph(Truncate(row.scalability, TextCellLength), None)
    case ProfitModel => Paragraph(Truncate(row.profitModel, TextCellLength), None)
    case InnovationLevel => LevelBadge(row.innovationLevel, LevelColor(row.innovationLevel))
    case OverallRating => RatingBox(row.overallRating, RatingColor(row.overallRating))
  }

  /** The text a plain text column holds; None for the other columns. */
  function TextField(row: Row, column: Column): Option<string> {
    match column
    case Idea => Some(row.idea)
    case TargetAudience => Some(row.targetAudience)
    case ProblemsSolved => Some(row.problemsSolved)
    case ProposedSolution => Some(row.proposedSolution)
    case Scalability => Some(row.scalability)
    case ProfitModel => Some(row.profitModel)
    case _ => None
  }

  /** Every text cell shows its text whole when it fits its limit (150 for
      the idea, 120 otherwise), and otherwise exactly its first `limit`
      characters followed by "..."; only the idea cell carries the date. */
  lemma TextCellsCut(row: Row, column: Column)
    requires TextField(row, column).Some?
    ensures var c := RenderCell(row, column);
            var text := TextField(row, column).value;
            var limit := if column == Idea then IdeaCellLength else TextCellLength;
            c.Paragraph? && (c.date.Some? <==> column == Idea)
            && (|text| <= limit ==> c.text == text)
            && (|text| > limit ==> c.text == text[..limit] + "...")
  {
  }

  /** A single competitor string is shown as one badge, with no count. */
  lemma SingleCompetitor(row: Row)
    requires row.competitors.One?
    ensures RenderCell(row, CompetitorsColumn) == Badges([row.competitors.name], None)
  {
  }
}

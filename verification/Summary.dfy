/** The summary line of a category, read off the text of its last record. */
module Summary {
  import opened Basics
  import opened Verdict
  import opened RunCategory

  const REVIEW_NOTE := " [stopped: NEEDS MANUAL REVIEW]"
  const SERVER_NOTE := " [stopped: SERVER ERROR]"
  const ERROR_NOTE := " [stopped: ERROR]"
  const VIOLATION_NOTE := " [stopped: CVV violation]"

  function QuotaNote(minutes: string): string {
    " [stopped: QUOTA -- next opencode attempt in ~" + minutes + "min, gave up waiting]"
  }

  /** What the final summary says of a category, read off its last record; `minutes` formats a wait. */
  function SummaryNote(records: seq<TierRecord>, minutes: int -> string): string {
    if records == [] then "" else Note(records[|records| - 1], minutes)
  }

  function Note(last: TierRecord, minutes: int -> string): string {
    if last.passed then ""
    else if last.needsReview then REVIEW_NOTE
    else if QUOTA <= last.reason then QuotaNote(minutes(last.waitMs))
    else if SERVER_ERROR <= last.reason then SERVER_NOTE
    else if REQUEST_ERROR <= last.reason then ERROR_NOTE
    else VIOLATION_NOTE
  }

  /** The dots a note can go with. */
  ghost predicate NoteFits(dot: char, note: string) {
    match dot
    case '.' => note == ""
    case 'R' => note == REVIEW_NOTE
    case 'Q' => exists m :: note == QuotaNote(m)
    case 'E' => note == SERVER_NOTE || note == ERROR_NOTE
    case 'F' => note == VIOLATION_NOTE
    case _ => false
  }

  /** The record's reason, written for people and read back by its beginning, tells the same story as
      the dot and as the way the tier ended. */
  lemma {:induction false} NoteFromDot(tiers: seq<Tier>, ends: seq<TierEnd>, records: seq<TierRecord>, dots: string,
                                       minutes: int -> string)
    requires Climbed(tiers, ends, records, dots)
    ensures records == [] ==> SummaryNote(records, minutes) == ""
    ensures records != [] ==> NoteFits(dots[|dots| - 1], SummaryNote(records, minutes))
    ensures records != [] ==>
              match ends[|ends| - 1]
              case Scored(_, _, _) => true
              case QuotaStop(_, waitMs) => SummaryNote(records, minutes) == QuotaNote(minutes(waitMs))
              case ServerStop(_) => SummaryNote(records, minutes) == SERVER_NOTE
              case RequestError(_) => SummaryNote(records, minutes) == ERROR_NOTE
  {
    hide NoteFits, Note, RecordFor, DotFor, QuotaNote, SERVER_NOTE, ERROR_NOTE;
    if records != [] {
      NoteOfRecord(tiers[|records| - 1], ends[|records| - 1], minutes);
    }
  }

  lemma {:induction false} NoteOfRecord(tier: Tier, end: TierEnd, minutes: int -> string)
    ensures var note := Note(RecordFor(tier, end), minutes);
            && NoteFits(DotFor(tier, end), note)
            && match end
               case Scored(_, _, _) => true
               case QuotaStop(_, waitMs) => note == QuotaNote(minutes(waitMs))
               case ServerStop(_) => note == SERVER_NOTE
               case RequestError(_) => note == ERROR_NOTE
  {
    ReasonPrefixes(tier, end);
    hide CheckPass, QUOTA, SERVER_ERROR, REQUEST_ERROR, NEEDS_REVIEW, REVIEW_NOTE, SERVER_NOTE, ERROR_NOTE,
         VIOLATION_NOTE, QuotaNote;
  }

  lemma {:induction false} FirstOf(p: string, a: string, b: string, c: string)
    requires p != ""
    ensures p + a != "" && (p + a)[0] == p[0]
    ensures p + a + b != "" && (p + a + b)[0] == p[0]
    ensures p + a + b + c != "" && (p + a + b + c)[0] == p[0]
  {
  }

  /** A scored tier's reason begins with none of the letters the other reasons begin with. */
  lemma {:induction false} ScoredReason(scan: ScanResult, criteria: Criteria)
    ensures var (_, reason) := CheckPass(scan, criteria);
            reason != "" && reason[0] != 'q' && reason[0] != 'o' && reason[0] != 'H'
  {
    hide FirstForbidden, FirstAbsent, Get, Digits;
    if !scan.scanned {
      FirstOf(NOT_SCANNED, NEVER_SCORED, scan.error, "");
      assert NOT_SCANNED[0] == 'S';
    } else if FirstForbidden(criteria.mustNot, scan.counts).Some? {
      var c := FirstForbidden(criteria.mustNot, scan.counts).value;
      FirstOf("forbidden finding present: ", c, " (x", Digits(Get(scan.counts, c)));
      FirstOf("forbidden finding present: " + c + " (x" + Digits(Get(scan.counts, c)), ")", "", "");
    } else if FirstAbsent(criteria.must, scan.counts).Some? {
      FirstOf("required finding absent: ", FirstAbsent(criteria.must, scan.counts).value, "", "");
    } else if criteria.manualCheck.Some? {
      FirstOf(NEEDS_REVIEW, REVIEW_REASON, criteria.manualCheck.value, "");
      assert NEEDS_REVIEW[0] == 'N';
    }
  }

  lemma {:induction false} PrefixStarts(p: string, rest: string, q: string)
    requires p != "" && q != ""
    ensures p <= p + rest && (p[0] != q[0] ==> !(q <= p + rest))
  {
  }

  lemma {:induction false} ReasonPrefixes(tier: Tier, end: TierEnd)
    ensures var reason := RecordFor(tier, end).reason;
            && (QUOTA <= reason <==> end.QuotaStop?)
            && (SERVER_ERROR <= reason <==> end.ServerStop?)
            && (REQUEST_ERROR <= reason <==> end.RequestError?)
  {
    hide CheckPass;
    assert QUOTA[0] == 'q' && SERVER_ERROR[0] == 'o' && REQUEST_ERROR[0] == 'H';
    match end
    case Scored(_, _, scan) =>
      hide QUOTA, SERVER_ERROR, REQUEST_ERROR;
      ScoredReason(scan, tier.criteria);
    case QuotaStop(text, _) =>
      hide QUOTA, SERVER_ERROR, REQUEST_ERROR;
      Regroup(QUOTA, ": ", text);
      PrefixStarts(QUOTA, ": " + text, SERVER_ERROR);
      PrefixStarts(QUOTA, ": " + text, REQUEST_ERROR);
    case ServerStop(text) =>
      hide QUOTA, SERVER_ERROR, REQUEST_ERROR;
      Regroup(SERVER_ERROR, ": ", text);
      PrefixStarts(SERVER_ERROR, ": " + text, QUOTA);
      PrefixStarts(SERVER_ERROR, ": " + text, REQUEST_ERROR);
    case RequestError(message) =>
      hide QUOTA, SERVER_ERROR, REQUEST_ERROR;
      Regroup(REQUEST_ERROR, ": ", message);
      PrefixStarts(REQUEST_ERROR, ": " + message, QUOTA);
      PrefixStarts(REQUEST_ERROR, ": " + message, SERVER_ERROR);
  }

  /** No note goes with two dots. */
  lemma {:induction false} DotFromNote(d: char, e: char, note: string)
    requires NoteFits(d, note) && NoteFits(e, note)
    ensures d == e
  {
    assert note != "" ==> |note| > 11;
  }
}

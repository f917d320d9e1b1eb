// The row normaliser of the CSV import (lib/csv-parser.ts): one tokenised row,
// a map from header to cell text, becomes one canonical Deal. It never fails:
// every missing or malformed cell falls back to a default.

module CsvParser {
  import opened Wrappers
  import opened DealTypes
  import opened Seqs
  import opened Text

  /** One data row as the CSV tokenizer yields it: header name to cell text. */
  type Row = map<string, string>

  /** The JavaScript built-ins the parser calls. `parseDate(text)` is
      `new Date(text)`, None for an invalid date; `parseFloat(text)` is
      `parseFloat`, None for NaN. */
  datatype Runtime = Runtime(parseDate: string -> Option<Millis>, parseFloat: string -> Option<real>)

  /** The logical fields of a deal that are read from a row. */
  datatype Field =
    | Id | CreatedDate | FirstName | LastName | Email | Company | Industry | CompanySize
    | Country | LeadSource | Status | Owner | DealValue | PipelineStage | LastContactDate
    | NextFollowupDate | Tags

  /** The accepted header spellings of each field, in the order they are tried. */
  function Aliases(f: Field): seq<string> {
    match f
    case Id => ["id", "ID", "Lead_ID", "lead_id"]
    case CreatedDate => ["createdDate", "Created Date", "created_date", "Created_Date"]
    case FirstName => ["firstName", "First Name", "first_name", "First_Name"]
    case LastName => ["lastName", "Last Name", "last_name", "Last_Name"]
    case Email => ["email", "Email"]
    case Company => ["company", "Company"]
    case Industry => ["industry", "Industry"]
    case CompanySize => ["companySize", "Company Size", "company_size", "Company_Size"]
    case Country => ["country", "Country"]
    case LeadSource => ["leadSource", "Lead Source", "lead_source", "Lead_Source"]
    case Status => ["status", "Status"]
    case Owner => ["owner", "Owner"]
    case DealValue => ["dealValue", "Deal Value", "deal_value", "Deal_Value"]
    case PipelineStage => ["pipelineStage", "Pipeline Stage", "pipeline_stage", "Pipeline_Stage"]
    case LastContactDate => ["lastContactDate", "Last Contact Date", "last_contact_date", "Last_Contact_Date"]
    case NextFollowupDate => ["nextFollowupDate", "Next Followup Date", "next_followup_date", "Next_Followup_Date"]
    case Tags => ["tags", "Tags"]
  }

  /** Sorts a header spelling by its length and its first and third
      characters: enough to tell the spellings of different fields apart
      (AliasOwner), which is all disjointness needs. */
  function FieldOf(a: string): Option<Field> {
    if |a| < 2 then None
    else
      var c0, c2 := a[0], if |a| > 2 then a[2] else ' ';
      match |a|
      case 2 =>
        if c0 == 'i' && c2 == ' ' then Some(Id)
        else if c0 == 'I' && c2 == ' ' then Some(Id)
        else None
      case 4 =>
        if c0 == 't' && c2 == 'g' then Some(Tags)
        else if c0 == 'T' && c2 == 'g' then Some(Tags)
        else None
      case 5 =>
        if c0 == 'e' && c2 == 'a' then Some(Email)
        else if c0 == 'E' && c2 == 'a' then Some(Email)
        else if c0 == 'o' && c2 == 'n' then Some(Owner)
        else if c0 == 'O' && c2 == 'n' then Some(Owner)
        else None
      case 6 =>
        if c0 == 's' && c2 == 'a' then Some(Status)
        else if c0 == 'S' && c2 == 'a' then Some(Status)
        else None
      case 7 =>
        if c0 == 'L' && c2 == 'a' then Some(Id)
        else if c0 == 'l' && c2 == 'a' then Some(Id)
        else if c0 == 'c' && c2 == 'm' then Some(Company)
        else if c0 == 'C' && c2 == 'm' then Some(Company)
        else if c0 == 'c' && c2 == 'u' then Some(Country)
        else if c0 == 'C' && c2 == 'u' then Some(Country)
        else None
      case 8 =>
        if c0 == 'l' && c2 == 's' then Some(LastName)
        else if c0 == 'i' && c2 == 'd' then Some(Industry)
        else if c0 == 'I' && c2 == 'd' then Some(Industry)
        else None
      case 9 =>
        if c0 == 'f' && c2 == 'r' then Some(FirstName)
        else if c0 == 'L' && c2 == 's' then Some(LastName)
        else if c0 == 'l' && c2 == 's' then Some(LastName)
        else if c0 == 'd' && c2 == 'a' then Some(DealValue)
        else None
      case 10 =>
        if c0 == 'F' && c2 == 'r' then Some(FirstName)
        else if c0 == 'f' && c2 == 'r' then Some(FirstName)
        else if c0 == 'l' && c2 == 'a' then Some(LeadSource)
        else if c0 == 'D' && c2 == 'a' then Some(DealValue)
        else if c0 == 'd' && c2 == 'a' then Some(DealValue)
        else None
      case 11 =>
        if c0 == 'c' && c2 == 'e' then Some(CreatedDate)
        else if c0 == 'c' && c2 == 'm' then Some(CompanySize)
        else if c0 == 'L' && c2 == 'a' then Some(LeadSource)
        else if c0 == 'l' && c2 == 'a' then Some(LeadSource)
        else None
      case 12 =>
        if c0 == 'C' && c2 == 'e' then Some(CreatedDate)
        else if c0 == 'c' && c2 == 'e' then Some(CreatedDate)
        else if c0 == 'C' && c2 == 'm' then Some(CompanySize)
        else if c0 == 'c' && c2 == 'm' then Some(CompanySize)
        else None
      case 13 =>
        if c0 == 'p' && c2 == 'p' then Some(PipelineStage)
        else None
      case 14 =>
        if c0 == 'P' && c2 == 'p' then Some(PipelineStage)
        else if c0 == 'p' && c2 == 'p' then Some(PipelineStage)
        else None
      case 15 =>
        if c0 == 'l' && c2 == 's' then Some(LastContactDate)
        else None
      case 16 =>
        if c0 == 'n' && c2 == 'x' then Some(NextFollowupDate)
        else None
      case 17 =>
        if c0 == 'L' && c2 == 's' then Some(LastContactDate)
        else if c0 == 'l' && c2 == 's' then Some(LastContactDate)
        else None
      case 18 =>
        if c0 == 'N' && c2 == 'x' then Some(NextFollowupDate)
        else if c0 == 'n' && c2 == 'x' then Some(NextFollowupDate)
        else None
      case _ => None
  }

  /** FieldOf on the spellings of each field, one group of fields at a time. */
  lemma PersonAliasOwner(f: Field, a: string)
    requires f == Id || f == FirstName || f == LastName || f == Email
    requires a in Aliases(f)
    ensures FieldOf(a) == Some(f)
  {
  }

  lemma CompanyAliasOwner(f: Field, a: string)
    requires f == Company || f == Industry || f == CompanySize || f == Country
    requires a in Aliases(f)
    ensures FieldOf(a) == Some(f)
  {
  }

  lemma SalesAliasOwner(f: Field, a: string)
    requires f == LeadSource || f == Status || f == Owner || f == CreatedDate
    requires a in Aliases(f)
    ensures FieldOf(a) == Some(f)
  {
  }

  lemma DealAliasOwner(f: Field, a: string)
    requires f == DealValue || f == PipelineStage || f == Tags
    requires a in Aliases(f)
    ensures FieldOf(a) == Some(f)
  {
  }

  lemma DateAliasOwner(f: Field, a: string)
    requires f == LastContactDate || f == NextFollowupDate
    requires a in Aliases(f)
    ensures FieldOf(a) == Some(f)
  {
  }

  /** Every spelling of a field is sorted to that field. */
  lemma AliasOwner(f: Field, a: string)
    requires a in Aliases(f)
    ensures FieldOf(a) == Some(f)
  {
    if f == Id || f == FirstName || f == LastName || f == Email {
      PersonAliasOwner(f, a);
    } else if f == Company || f == Industry || f == CompanySize || f == Country {
      CompanyAliasOwner(f, a);
    } else if f == LeadSource || f == Status || f == Owner || f == CreatedDate {
      SalesAliasOwner(f, a);
    } else if f == DealValue || f == PipelineStage || f == Tags {
      DealAliasOwner(f, a);
    } else {
      DateAliasOwner(f, a);
    }
  }

  /** A header spelling belongs to one field only. */
  lemma AliasesDisjoint(f: Field, g: Field, a: string)
    requires f != g && a in Aliases(f)
    ensures a !in Aliases(g)
  {
    AliasOwner(f, a);
    if a in Aliases(g) {
      AliasOwner(g, a);
    }
  }

  /** A cell counts when its header is in the row and its text is non-empty:
      `row[key] || ...` skips both `undefined` and `""`. */
  predicate Present(row: Row, key: string) {
    key in row && row[key] != ""
  }

  /** The index of the first alias whose cell counts, or `|aliases|` when none does. */
  function FirstPresent(row: Row, aliases: seq<string>): (k: nat)
    ensures k <= |aliases|
    ensures k < |aliases| ==> Present(row, aliases[k])
    ensures forall j :: 0 <= j < k ==> !Present(row, aliases[j])
  {
    if |aliases| == 0 then 0
    else if Present(row, aliases[0]) then 0
    else 1 + FirstPresent(row, aliases[1..])
  }

  /** The chain `row[a1] || row[a2] || ...`: the text of the first alias that
      counts, or None when no alias does. */
  function Lookup(row: Row, f: Field): (r: Option<string>)
    ensures r.None? <==> forall a :: a in Aliases(f) ==> !Present(row, a)
    ensures r.Some? ==> r.value != ""
    ensures r.Some? ==> FirstPresent(row, Aliases(f)) < |Aliases(f)|
                        && r.value == row[Aliases(f)[FirstPresent(row, Aliases(f))]]
  {
    var aliases := Aliases(f);
    var k := FirstPresent(row, aliases);
    if k < |aliases| then Some(row[aliases[k]]) else None
  }

  /** parseDate: the instant the text denotes, or `now` when it is not a valid
      date. */
  function ParseDate(text: string, now: Millis, rt: Runtime): (t: Millis)
    ensures rt.parseDate(text).Some? ==> t == rt.parseDate(text).value
    ensures rt.parseDate(text).None? ==> t == now
  {
    match rt.parseDate(text)
    case Some(t) => t
    case None => now
  }

  /** `parseFloat(text) || 0`: the number, or 0 for NaN (a parsed 0 is 0
      either way). Negative amounts are kept. */
  function ParseAmount(text: string, rt: Runtime): (v: real)
    ensures rt.parseFloat(text).None? ==> v == 0.0
    ensures rt.parseFloat(text).Some? ==> v == rt.parseFloat(text).value
  {
    match rt.parseFloat(text)
    case Some(v) => v
    case None => 0.0
  }

  predicate NonEmpty(s: string) {
    s != ""
  }

  /** parseTags: split on `,` `;` `|`, trim each piece, drop the empty ones.
      Every tag is non-empty, trimmed and free of separators. */
  function ParseTags(value: string): (tags: seq<string>)
    ensures value == "" ==> tags == []
    ensures forall t :: t in tags ==> t != "" && Trim(t) == t && NoDelimiter(t)
  {
    if value == "" then []
    else
      var parts := Split(value);
      var trimmed := TrimAll(parts);
      TrimmedPieces(parts);
      Filter(NonEmpty, trimmed)
  }

  /** The tags a list of pieces stands for: each piece trimmed, the blank
      ones dropped, the rest in order. */
  function CleanTags(pieces: seq<string>): seq<string> {
    if |pieces| == 0 then []
    else (if Trim(pieces[0]) == "" then [] else [Trim(pieces[0])]) + CleanTags(pieces[1..])
  }

  /** Whatever separators a cell mixes, its tags are exactly the trimmed
      non-blank pieces between them, in order. Every cell is such a join
      (`Text.SplitRebuild`), so this describes parseTags on all input. */
  lemma ParseTagsOfPieces(pieces: seq<string>, seps: string)
    requires |pieces| == |seps| + 1
    requires forall k :: 0 <= k < |pieces| ==> NoDelimiter(pieces[k])
    requires forall k :: 0 <= k < |seps| ==> IsTagDelimiter(seps[k])
    ensures ParseTags(JoinWith(pieces, seps)) == CleanTags(pieces)
  {
    var value := JoinWith(pieces, seps);
    if value == "" {
      assert pieces == [""];
    } else {
      SplitJoin(pieces, seps);
      FilterTrimAll(pieces);
    }
  }

  lemma {:induction false} FilterTrimAll(pieces: seq<string>)
    ensures Filter(NonEmpty, TrimAll(pieces)) == CleanTags(pieces)
  {
    if |pieces| > 0 {
      assert TrimAll(pieces)[1..] == TrimAll(pieces[1..]);
      FilterTrimAll(pieces[1..]);
    }
  }

  /** Clean tags written out with any separators read back as the same
      tags, in order and with repeats. */
  lemma ParseTagsRoundTrip(tags: seq<string>, seps: string)
    requires |tags| == |seps| + 1
    requires forall k :: 0 <= k < |seps| ==> IsTagDelimiter(seps[k])
    requires forall t :: t in tags ==> t != "" && Trim(t) == t && NoDelimiter(t)
    ensures ParseTags(JoinWith(tags, seps)) == tags
  {
    ParseTagsOfPieces(tags, seps);
    assert forall k :: 0 <= k < |tags| ==> tags[k] in tags;
    CleanTagsOfClean(tags);
  }

  lemma {:induction false} CleanTagsOfClean(tags: seq<string>)
    requires forall k :: 0 <= k < |tags| ==> tags[k] != "" && Trim(tags[k]) == tags[k]
    ensures CleanTags(tags) == tags
  {
    if |tags| > 0 {
      CleanTagsOfClean(tags[1..]);
      assert tags == [tags[0]] + tags[1..];
    }
  }

  /** mapRow: the deal a row describes; `index` is the row's position among
      the data rows. */
  function MapRow(row: Row, index: nat, now: Millis, rt: Runtime): (d: Deal)
    ensures forall t :: t in d.tags ==> t != ""
  {
    Deal(
      id := Lookup(row, Id).GetOr(NatToString(index)),
      createdDate := ParseDate(Lookup(row, CreatedDate).GetOr(""), now, rt),
      firstName := Lookup(row, FirstName).GetOr(""),
      lastName := Lookup(row, LastName).GetOr(""),
      email := Lookup(row, Email).GetOr(""),
      company := Lookup(row, Company).GetOr(""),
      industry := Lookup(row, Industry).GetOr(""),
      companySize := Lookup(row, CompanySize).GetOr(""),
      country := Lookup(row, Country).GetOr(""),
      leadSource := Lookup(row, LeadSource).GetOr(""),
      status := Lookup(row, Status).GetOr(""),
      owner := Lookup(row, Owner).GetOr(""),
      dealValue := ParseAmount(Lookup(row, DealValue).GetOr("0"), rt),
      pipelineStage := ParseStage(Lookup(row, PipelineStage).GetOr("Lead")),
      lastContactDate := ParseDate(Lookup(row, LastContactDate).GetOr(""), now, rt),
      nextFollowupDate := ParseDate(Lookup(row, NextFollowupDate).GetOr(""), now, rt),
      tags := ParseTags(Lookup(row, Tags).GetOr(""))
    )
  }

  /** The id is the first non-empty id cell, else the row index in decimal. */
  lemma MapRowId(row: Row, index: nat, now: Millis, rt: Runtime)
    ensures var d := MapRow(row, index, now, rt);
      && ((forall a :: a in Aliases(Id) ==> !Present(row, a)) ==> d.id == NatToString(index))
      && (forall k ::
            (0 <= k < 4 && Present(row, Aliases(Id)[k]) && forall j :: 0 <= j < k ==> !Present(row, Aliases(Id)[j]))
            ==> d.id == row[Aliases(Id)[k]])
  {
    forall k | 0 <= k < 4 && Present(row, Aliases(Id)[k])
        && (forall j :: 0 <= j < k ==> !Present(row, Aliases(Id)[j]))
      ensures MapRow(row, index, now, rt).id == row[Aliases(Id)[k]]
    {
      assert FirstPresent(row, Aliases(Id)) == k;
    }
  }

  /** With no stage cell the deal is a Lead; otherwise the stage spells the
      cell's text exactly, known or not. */
  lemma MapRowStage(row: Row, index: nat, now: Millis, rt: Runtime)
    ensures var d := MapRow(row, index, now, rt);
      && ((forall a :: a in Aliases(PipelineStage) ==> !Present(row, a)) ==> d.pipelineStage == Lead)
      && (Lookup(row, PipelineStage).Some? ==> StageName(d.pipelineStage) == Lookup(row, PipelineStage).value)
  {
    var text := Lookup(row, PipelineStage).GetOr("Lead");
    assert MapRow(row, index, now, rt).pipelineStage == ParseStage(text);
    ParseStageLossless(text);
    ParseStageOfName(Lead);
  }

  /** With no amount cell, or one that does not parse, the value is 0;
      a parsed amount is kept as it is, negative or not. */
  lemma MapRowValue(row: Row, index: nat, now: Millis, rt: Runtime)
    requires rt.parseFloat("0") == Some(0.0) || rt.parseFloat("0").None?
    ensures var d := MapRow(row, index, now, rt);
      && ((forall a :: a in Aliases(DealValue) ==> !Present(row, a)) ==> d.dealValue == 0.0)
      && (Lookup(row, DealValue).Some? && rt.parseFloat(Lookup(row, DealValue).value).None? ==> d.dealValue == 0.0)
      && (Lookup(row, DealValue).Some? && rt.parseFloat(Lookup(row, DealValue).value).Some? ==>
            d.dealValue == rt.parseFloat(Lookup(row, DealValue).value).value)
  {
  }

  /** Free-text fields are "" when no alias holds text, and a missing or
      invalid date becomes `now` (when the runtime rejects the empty string,
      as `new Date("")` does). */
  lemma MapRowDefaults(row: Row, index: nat, now: Millis, rt: Runtime)
    requires rt.parseDate("").None?
    ensures var d := MapRow(row, index, now, rt);
      && (Lookup(row, FirstName).None? ==> d.firstName == "")
      && (Lookup(row, LastName).None? ==> d.lastName == "")
      && (Lookup(row, Email).None? ==> d.email == "")
      && (Lookup(row, Company).None? ==> d.company == "")
      && (Lookup(row, Industry).None? ==> d.industry == "")
      && (Lookup(row, CompanySize).None? ==> d.companySize == "")
      && (Lookup(row, Country).None? ==> d.country == "")
      && (Lookup(row, LeadSource).None? ==> d.leadSource == "")
      && (Lookup(row, Status).None? ==> d.status == "")
      && (Lookup(row, Owner).None? ==> d.owner == "")
      && (Lookup(row, Tags).None? ==> d.tags == [])
      && (Lookup(row, CreatedDate).None? ==> d.createdDate == now)
      && (Lookup(row, LastContactDate).None? ==> d.lastContactDate == now)
      && (Lookup(row, NextFollowupDate).None? ==> d.nextFollowupDate == now)
  {
  }

  /** Every field found in the row reaches the deal: a text field takes the
      cell as it is, a date the runtime's reading of it (or `now`), and the
      tags the parsed tag list. */
  lemma MapRowFields(row: Row, index: nat, now: Millis, rt: Runtime)
    ensures var d := MapRow(row, index, now, rt);
      && (Lookup(row, FirstName).Some? ==> d.firstName == Lookup(row, FirstName).value)
      && (Lookup(row, LastName).Some? ==> d.lastName == Lookup(row, LastName).value)
      && (Lookup(row, Email).Some? ==> d.email == Lookup(row, Email).value)
      && (Lookup(row, Company).Some? ==> d.company == Lookup(row, Company).value)
      && (Lookup(row, Industry).Some? ==> d.industry == Lookup(row, Industry).value)
      && (Lookup(row, CompanySize).Some? ==> d.companySize == Lookup(row, CompanySize).value)
      && (Lookup(row, Country).Some? ==> d.country == Lookup(row, Country).value)
      && (Lookup(row, LeadSource).Some? ==> d.leadSource == Lookup(row, LeadSource).value)
      && (Lookup(row, Status).Some? ==> d.status == Lookup(row, Status).value)
      && (Lookup(row, Owner).Some? ==> d.owner == Lookup(row, Owner).value)
      && (Lookup(row, CreatedDate).Some? ==> d.createdDate == ParseDate(Lookup(row, CreatedDate).value, now, rt))
      && (Lookup(row, LastContactDate).Some? ==>
            d.lastContactDate == ParseDate(Lookup(row, LastContactDate).value, now, rt))
      && (Lookup(row, NextFollowupDate).Some? ==>
            d.nextFollowupDate == ParseDate(Lookup(row, NextFollowupDate).value, now, rt))
      && (Lookup(row, Tags).Some? ==> d.tags == ParseTags(Lookup(row, Tags).value))
  {
  }

  /** Setting a cell under a header that is not an alias of `f` leaves the
      lookup of `f` unchanged. */
  lemma {:induction false} FirstPresentIgnores(row: Row, aliases: seq<string>, key: string, v: string)
    requires key !in aliases
    ensures FirstPresent(row[key := v], aliases) == FirstPresent(row, aliases)
  {
    if |aliases| > 0 {
      FirstPresentIgnores(row, aliases[1..], key, v);
    }
  }

  lemma {:induction false} FirstPresentOnly(row: Row, aliases: seq<string>, key: string, v: string)
    requires key in aliases && v != ""
    requires forall a :: a in aliases ==> !Present(row, a)
    ensures FirstPresent(row[key := v], aliases) < |aliases|
    ensures aliases[FirstPresent(row[key := v], aliases)] == key
  {
    if aliases[0] != key {
      assert key in aliases[1..] && aliases[0] in aliases;
      assert !Present(row[key := v], aliases[0]);
      FirstPresentOnly(row, aliases[1..], key, v);
      var k := FirstPresent(row[key := v], aliases[1..]);
      assert aliases[1..][k] == aliases[k + 1];
    }
  }

  /** Two rows that differ only in which accepted header spelling holds a
      field's cell yield the same deal. */
  lemma HeaderAliasEquivalence(base: Row, f: Field, a1: string, a2: string, v: string,
                               index: nat, now: Millis, rt: Runtime)
    requires a1 in Aliases(f) && a2 in Aliases(f) && v != ""
    requires forall a :: a in Aliases(f) ==> !Present(base, a)
    ensures MapRow(base[a1 := v], index, now, rt) == MapRow(base[a2 := v], index, now, rt)
  {
    var row1, row2 := base[a1 := v], base[a2 := v];
    forall g: Field
      ensures Lookup(row1, g) == Lookup(row2, g)
    {
      LookupEquivalence(base, f, g, a1, a2, v);
    }
    MapRowOfLookups(row1, row2, index, now, rt);
  }

  /** The lookup of any field `g` agrees on the two rows. */
  lemma LookupEquivalence(base: Row, f: Field, g: Field, a1: string, a2: string, v: string)
    requires a1 in Aliases(f) && a2 in Aliases(f) && v != ""
    requires forall a :: a in Aliases(f) ==> !Present(base, a)
    ensures Lookup(base[a1 := v], g) == Lookup(base[a2 := v], g)
  {
    if g == f {
      FirstPresentOnly(base, Aliases(f), a1, v);
      FirstPresentOnly(base, Aliases(f), a2, v);
    } else {
      LookupIgnores(base, f, g, a1, v);
      LookupIgnores(base, f, g, a2, v);
    }
  }

  /** A cell under a spelling of `f` does not affect the lookup of another field. */
  lemma LookupIgnores(row: Row, f: Field, g: Field, a: string, v: string)
    requires f != g && a in Aliases(f)
    ensures Lookup(row[a := v], g) == Lookup(row, g)
  {
    AliasesDisjoint(f, g, a);
    FirstPresentIgnores(row, Aliases(g), a, v);
  }

  /** A deal depends on its row only through the lookups of the fields. */
  lemma MapRowOfLookups(row1: Row, row2: Row, index: nat, now: Millis, rt: Runtime)
    requires forall g: Field :: Lookup(row1, g) == Lookup(row2, g)
    ensures MapRow(row1, index, now, rt) == MapRow(row2, index, now, rt)
  {
    assert Lookup(row1, Id) == Lookup(row2, Id);
    assert Lookup(row1, CreatedDate) == Lookup(row2, CreatedDate);
    assert Lookup(row1, FirstName) == Lookup(row2, FirstName);
    assert Lookup(row1, LastName) == Lookup(row2, LastName);
    assert Lookup(row1, Email) == Lookup(row2, Email);
    assert Lookup(row1, Company) == Lookup(row2, Company);
    assert Lookup(row1, Industry) == Lookup(row2, Industry);
    assert Lookup(row1, CompanySize) == Lookup(row2, CompanySize);
    assert Lookup(row1, Country) == Lookup(row2, Country);
    assert Lookup(row1, LeadSource) == Lookup(row2, LeadSource);
    assert Lookup(row1, Status) == Lookup(row2, Status);
    assert Lookup(row1, Owner) == Lookup(row2, Owner);
    assert Lookup(row1, DealValue) == Lookup(row2, DealValue);
    assert Lookup(row1, PipelineStage) == Lookup(row2, PipelineStage);
    assert Lookup(row1, LastContactDate) == Lookup(row2, LastContactDate);
    assert Lookup(row1, NextFollowupDate) == Lookup(row2, NextFollowupDate);
    assert Lookup(row1, Tags) == Lookup(row2, Tags);
  }

  /** The row to deal mapping of parseCsvFile: one deal per data row, in row
      order, deal `i` mapped with index `i`. */
  function ParseRows(rows: seq<Row>, now: Millis, rt: Runtime): (deals: seq<Deal>)
    ensures |deals| == |rows|
    ensures forall i :: 0 <= i < |rows| ==> deals[i] == MapRow(rows[i], i, now, rt)
  {
    seq(|rows|, i requires 0 <= i < |rows| => MapRow(rows[i], i, now, rt))
  }

  /** When no row has an id cell, the index fallback gives every deal a
      different id. */
  lemma FallbackIdsDistinct(rows: seq<Row>, now: Millis, rt: Runtime)
    requires forall i, a :: 0 <= i < |rows| && a in Aliases(Id) ==> !Present(rows[i], a)
    ensures var deals := ParseRows(rows, now, rt);
      forall i, j :: 0 <= i < j < |deals| ==> deals[i].id != deals[j].id
  {
    var deals := ParseRows(rows, now, rt);
    forall i, j | 0 <= i < j < |deals|
      ensures deals[i].id != deals[j].id
    {
      MapRowId(rows[i], i, now, rt);
      MapRowId(rows[j], j, now, rt);
      NatToStringInjective(i, j);
    }
  }
}

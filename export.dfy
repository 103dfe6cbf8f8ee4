/** The CSV form of `GET /api/export?format=csv`: a header line, then one line per row in the
    order the rows were fetched. Text fields are wrapped in double quotes and nothing inside them
    is escaped. */
module Export {
  import opened Wrappers
  import opened Strings
  import opened Members

  const CsvHeaders: seq<string> := ["ID", "Nama", "Fraksi", "Partai", "Dapil", "TTL", "Agama",
                                    "Kota Lahir", "Usia", "Pendidikan Terakhir", "Kader", "Dewan"]

  const HeaderLine: string := Join(CsvHeaders, ",")

  /** `x || ''` on a text column: NULL becomes the empty string. */
  function TextOf(x: Option<string>): string {
    x.GetOr("")
  }

  /** `"${v}"`. */
  function Quoted(s: string): string {
    "\"" + s + "\""
  }

  /** `member.usia || ''`: NULL and 0 both give an empty cell. */
  function UsiaCell(u: Option<int>): string {
    if u.None? || u.value == 0 then "" else IntToString(u.value)
  }

  /** `member.is_kader === '1' ? 'Ya' : 'Tidak'`: only the text '1' counts. */
  function FlagCell(x: Option<string>): string {
    if x == Some("1") then "Ya" else "Tidak"
  }

  /** The eight text columns, in line order, as they go between the quotes. */
  function TextFields(m: Member): seq<string> {
    [m.nama, TextOf(m.fraksi), TextOf(m.partai), TextOf(m.dapil), TextOf(m.ttl), TextOf(m.agama),
     TextOf(m.kota_lahir), TextOf(m.pendidikan_terakhir)]
  }

  function QuotedAll(ts: seq<string>): (qs: seq<string>)
    ensures |qs| == |ts|
    ensures forall i :: 0 <= i < |ts| ==> qs[i] == Quoted(ts[i])
  {
    if ts == [] then [] else [Quoted(ts[0])] + QuotedAll(ts[1..])
  }

  /** The twelve cells of a member's line: the id, seven quoted texts, the age, the quoted
      education and the two flags. */
  function CsvRow(m: Member): seq<string> {
    var t := TextFields(m);
    [IntToString(m.id)] + QuotedAll(t[..7]) + [UsiaCell(m.usia)] + QuotedAll(t[7..]) +
    [FlagCell(m.is_kader), FlagCell(m.is_dewan)]
  }

  function RowLine(m: Member): string {
    Join(CsvRow(m), ",")
  }

  function RowLines(ms: seq<Member>): (ls: seq<string>)
    ensures |ls| == |ms|
    ensures forall i :: 0 <= i < |ms| ==> ls[i] == RowLine(ms[i])
  {
    if ms == [] then [] else [RowLine(ms[0])] + RowLines(ms[1..])
  }

  /** Each line followed by a newline. */
  function Terminated(ls: seq<string>): string {
    if ls == [] then "" else ls[0] + "\n" + Terminated(ls[1..])
  }

  /** The whole document. */
  function CsvDocument(ms: seq<Member>): string {
    HeaderLine + "\n" + Terminated(RowLines(ms))
  }

  /** The export loop: the header line, then for each member in turn its line and a newline. */
  method ExportCsv(members: seq<Member>) returns (csv: string)
    ensures csv == CsvDocument(members)
  {
    csv := HeaderLine + "\n";
    for i := 0 to |members|
      invariant csv == HeaderLine + "\n" + Terminated(RowLines(members[..i]))
    {
      var row := CsvRow(members[i]);
      ghost var before := csv;
      csv := csv + Join(row, ",") + "\n";
      RowLinesSnoc(members, i);
      LinesStep(HeaderLine + "\n", RowLines(members[..i]), Join(row, ","), before, csv);
    }
    assert members[..|members|] == members;
  }

  lemma {:induction false} TerminatedSnoc(ls: seq<string>, l: string)
    ensures Terminated(ls + [l]) == Terminated(ls) + (l + "\n")
  {
    if ls == [] {
      assert ls + [l] == [l];
      assert [l][1..] == [];
    } else {
      assert (ls + [l])[1..] == ls[1..] + [l];
      TerminatedSnoc(ls[1..], l);
    }
  }

  /** One turn of the export loop appends the next line and a newline. */
  lemma LinesStep(head: string, ls: seq<string>, l: string, before: string, after: string)
    requires before == head + Terminated(ls)
    requires after == before + l + "\n"
    ensures after == head + Terminated(ls + [l])
  {
    TerminatedSnoc(ls, l);
    assert before + l + "\n" == head + (Terminated(ls) + (l + "\n"));
  }

  lemma RowLinesSnoc(ms: seq<Member>, i: nat)
    requires i < |ms|
    ensures RowLines(ms[..i + 1]) == RowLines(ms[..i]) + [RowLine(ms[i])]
  {
    assert ms[..i + 1] == ms[..i] + [ms[i]];
    assert RowLines(ms[..i] + [ms[i]]) == RowLines(ms[..i]) + [RowLine(ms[i])];
  }

  // ---------------------------------------------------------------------------------------
  // Reading the document back.

  /** Strips one pair of surrounding double quotes. */
  function Unquote(c: string): string {
    if |c| >= 2 && c[0] == '"' && c[|c| - 1] == '"' then c[1..|c| - 1] else c
  }

  lemma UnquoteQuoted(s: string)
    ensures Unquote(Quoted(s)) == s
  {
    var q := Quoted(s);
    assert q[1..|q| - 1] == s;
  }

  /** A `Terminated` text is the newline join of its lines and one empty last line. */
  lemma {:induction false} TerminatedJoin(x: string, ls: seq<string>)
    ensures x + "\n" + Terminated(ls) == Join([x] + ls + [""], "\n")
    decreases |ls|
  {
    if ls == [] {
      assert [x] + ls + [""] == [x, ""];
      assert [x, ""][1..] == [""];
    } else {
      TerminatedJoin(ls[0], ls[1..]);
      assert ([x] + ls + [""])[1..] == [ls[0]] + ls[1..] + [""];
      assert x + "\n" + Terminated(ls) == x + "\n" + (ls[0] + "\n" + Terminated(ls[1..]));
    }
  }

  predicate NoText(c: char, m: Member) {
    forall i :: 0 <= i < |TextFields(m)| ==> c !in TextFields(m)[i]
  }

  /** A character that is neither a digit, `-`, a quote nor a letter of `Ya`/`Tidak` occurs in
      the cells of a line only inside a text field. */
  lemma RowAvoids(m: Member, c: char)
    requires NoText(c, m)
    requires c != '"' && !IsDigit(c) && c != '-' && c !in "YaTidk"
    ensures forall i :: 0 <= i < |CsvRow(m)| ==> c !in CsvRow(m)[i]
  {
    var row, t := CsvRow(m), TextFields(m);
    forall i | 0 <= i < |row| ensures c !in row[i] {
      if i == 0 {
        assert c !in IntToString(m.id);
      } else if i == 8 {
        assert c !in UsiaCell(m.usia);
      } else if i >= 10 {
        assert c !in "Ya" && c !in "Tidak";
      } else {
        var k := if i < 8 then i - 1 else 7;
        assert row[i] == Quoted(t[k]);
        assert c !in "\"";
      }
    }
  }

  lemma HeaderAvoidsNewline()
    ensures '\n' !in HeaderLine
  {
    forall i | 0 <= i < |CsvHeaders| ensures '\n' !in CsvHeaders[i] {
    }
    JoinAvoids(CsvHeaders, ",", '\n');
  }

  /** The header line splits back into the twelve column names. */
  lemma HeaderCells()
    ensures Split(HeaderLine, ',') == CsvHeaders
    ensures |CsvHeaders| == 12
  {
    forall i | 0 <= i < |CsvHeaders| ensures ',' !in CsvHeaders[i] {
    }
    SplitJoin(CsvHeaders, ',');
    assert "," == [','];
  }

  /** No line holds a newline. */
  predicate NewlineFree(ls: seq<string>) {
    forall i :: 0 <= i < |ls| ==> '\n' !in ls[i]
  }

  lemma {:induction false} LinesAvoidNewline(ms: seq<Member>)
    requires forall i :: 0 <= i < |ms| ==> NoText('\n', ms[i])
    ensures NewlineFree(RowLines(ms))
  {
    forall i | 0 <= i < |ms| ensures '\n' !in RowLines(ms)[i] {
      RowAvoids(ms[i], '\n');
      JoinAvoids(CsvRow(ms[i]), ",", '\n');
    }
  }

  /** Lines free of newlines, each terminated, split back into those lines and an empty last one. */
  lemma SplitTerminated(x: string, ls: seq<string>)
    requires '\n' !in x
    requires forall i :: 0 <= i < |ls| ==> '\n' !in ls[i]
    ensures Split(x + "\n" + Terminated(ls), '\n') == [x] + ls + [""]
  {
    var all := [x] + ls + [""];
    TerminatedJoin(x, ls);
    assert "\n" == ['\n'];
    forall i | 0 <= i < |all| ensures '\n' !in all[i] {
      if 0 < i <= |ls| {
        assert all[i] == ls[i - 1];
      }
    }
    SplitJoin(all, '\n');
  }

  /** With no newline in any text field, the document splits into the header, one line per
      member in order, and the empty text after the final newline. */
  lemma DocumentLines(ms: seq<Member>)
    requires forall i :: 0 <= i < |ms| ==> NoText('\n', ms[i])
    ensures Split(CsvDocument(ms), '\n') == [HeaderLine] + RowLines(ms) + [""]
  {
    LinesAvoidNewline(ms);
    SplitDocument(RowLines(ms));
  }

  /** Lines free of newlines behind the header line split back into the header and those lines. */
  lemma SplitDocument(ls: seq<string>)
    requires NewlineFree(ls)
    ensures Split(HeaderLine + "\n" + Terminated(ls), '\n') == [HeaderLine] + ls + [""]
  {
    HeaderAvoidsNewline();
    SplitTerminated(HeaderLine, ls);
  }

  lemma CountQuoted(c: char, s: string)
    requires c != '"'
    ensures Count(c, Quoted(s)) == Count(c, s)
  {
    CountAppend(c, "\"" + s, "\"");
    CountAppend(c, "\"", s);
  }

  lemma {:induction false} CountAllAppend(c: char, xs: seq<string>, ys: seq<string>)
    ensures CountAll(c, xs + ys) == CountAll(c, xs) + CountAll(c, ys)
  {
    if xs == [] {
      assert xs + ys == ys;
    } else {
      assert (xs + ys)[1..] == xs[1..] + ys;
      CountAllAppend(c, xs[1..], ys);
    }
  }

  lemma {:induction false} CountQuotedAll(c: char, ts: seq<string>)
    requires c != '"'
    ensures CountAll(c, QuotedAll(ts)) == CountAll(c, ts)
  {
    if ts != [] {
      CountQuoted(c, ts[0]);
      CountQuotedAll(c, ts[1..]);
    }
  }

  lemma {:induction false} CountAllNone(c: char, xs: seq<string>)
    requires forall i :: 0 <= i < |xs| ==> c !in xs[i]
    ensures CountAll(c, xs) == 0
  {
    if xs != [] {
      CountAllNone(c, xs[1..]);
    }
  }

  /** The commas of a line's cells are those of its text fields. */
  lemma RowCommas(m: Member)
    ensures CountAll(',', CsvRow(m)) == CountAll(',', TextFields(m))
  {
    var t := TextFields(m);
    var head, mid, flags := [IntToString(m.id)], [UsiaCell(m.usia)], [FlagCell(m.is_kader), FlagCell(m.is_dewan)];
    assert ',' !in IntToString(m.id) && ',' !in UsiaCell(m.usia);
    assert ',' !in FlagCell(m.is_kader) && ',' !in FlagCell(m.is_dewan);
    CountAllNone(',', head);
    CountAllNone(',', mid);
    CountAllNone(',', flags);
    CountQuotedAll(',', t[..7]);
    CountQuotedAll(',', t[7..]);
    CountAllAppend(',', head, QuotedAll(t[..7]));
    CountAllAppend(',', head + QuotedAll(t[..7]), mid);
    CountAllAppend(',', head + QuotedAll(t[..7]) + mid, QuotedAll(t[7..]));
    CountAllAppend(',', head + QuotedAll(t[..7]) + mid + QuotedAll(t[7..]), flags);
    CountAllAppend(',', t[..7], t[7..]);
    assert t[..7] + t[7..] == t;
  }

  /** A line has twelve cells plus one more for every comma inside a text field: the quotes do
      not protect commas from a reader that splits at every comma. */
  lemma CellCount(m: Member)
    ensures |Split(RowLine(m), ',')| == |CsvHeaders| + CountAll(',', TextFields(m))
  {
    CountJoin(CsvRow(m), ',');
    assert "," == [','];
    RowCommas(m);
  }

  /** The cell of the line that holds text field `k` (0 <= k < 8). */
  function TextCell(k: nat): nat {
    if k < 7 then k + 1 else 9
  }

  /** Cell by cell, what a line holds. */
  lemma RowCells(m: Member)
    ensures |CsvRow(m)| == |CsvHeaders|
    ensures CsvRow(m)[0] == IntToString(m.id)
    ensures forall k :: 0 <= k < 8 ==> CsvRow(m)[TextCell(k)] == Quoted(TextFields(m)[k])
    ensures CsvRow(m)[8] == UsiaCell(m.usia)
    ensures CsvRow(m)[10] == FlagCell(m.is_kader) && CsvRow(m)[11] == FlagCell(m.is_dewan)
  {
    var t := TextFields(m);
    var row := CsvRow(m);
    var front := [IntToString(m.id)] + QuotedAll(t[..7]);
    assert row == front + [UsiaCell(m.usia)] + QuotedAll(t[7..]) + [FlagCell(m.is_kader), FlagCell(m.is_dewan)];
    forall k | 0 <= k < 8 ensures row[TextCell(k)] == Quoted(t[k]) {
      if k < 7 {
        assert row[k + 1] == front[k + 1] == QuotedAll(t[..7])[k];
      } else {
        assert row[9] == QuotedAll(t[7..])[0];
      }
    }
  }

  /** With no comma in any text field, the line splits at its commas into exactly its cells. */
  lemma RowSplit(m: Member)
    requires NoText(',', m)
    ensures Split(RowLine(m), ',') == CsvRow(m)
  {
    RowAvoids(m, ',');
    SplitJoin(CsvRow(m), ',');
    assert "," == [','];
  }

  /** With no comma in any text field, splitting a line at its commas and unquoting gives back
      the member's values: the id, the texts (NULL read as empty), the age unless it is 0 or NULL,
      and whether each flag is the text '1'. */
  lemma RowRoundTrip(m: Member)
    requires NoText(',', m)
    ensures |Split(RowLine(m), ',')| == |CsvHeaders|
    ensures ParseInt(Split(RowLine(m), ',')[0]) == m.id
    ensures forall k :: 0 <= k < 8 ==> Unquote(Split(RowLine(m), ',')[TextCell(k)]) == TextFields(m)[k]
    ensures Split(RowLine(m), ',')[8] == "" <==> m.usia.None? || m.usia == Some(0)
    ensures Split(RowLine(m), ',')[8] != "" ==> ParseInt(Split(RowLine(m), ',')[8]) == m.usia.value
    ensures Split(RowLine(m), ',')[10] == "Ya" <==> m.is_kader == Some("1")
    ensures Split(RowLine(m), ',')[11] == "Ya" <==> m.is_dewan == Some("1")
  {
    RowSplit(m);
    RowCells(m);
    IntToStringRoundTrip(m.id);
    if m.usia.Some? && m.usia.value != 0 {
      IntToStringRoundTrip(m.usia.value);
      assert IntToString(m.usia.value) != "";
    }
    forall k | 0 <= k < 8 ensures Unquote(Quoted(TextFields(m)[k])) == TextFields(m)[k] {
      UnquoteQuoted(TextFields(m)[k]);
    }
  }
}

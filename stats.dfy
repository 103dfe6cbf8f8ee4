/** The two classifiers of the statistics endpoint: the age band of the `byUsia` query and the
    name-pattern gender guess of the `byGender` query, each a first-match `CASE`, and the
    per-category counts their `GROUP BY` reports. */
module Stats {
  import opened Wrappers
  import opened Sql
  import opened Members

  // ---------------------------------------------------------------------------------------
  // Tallies, shared by both groupings.

  /** How many of `ks` are `k`: the `COUNT(*)` of one group. */
  function Tally<K(==)>(ks: seq<K>, k: K): (n: nat)
    ensures n <= |ks|
    ensures n > 0 <==> k in ks
  {
    if ks == [] then 0 else (if ks[0] == k then 1 else 0) + Tally(ks[1..], k)
  }

  // ---------------------------------------------------------------------------------------
  // Age bands.

  datatype AgeBand = Under30 | From30To40 | From41To50 | From51To60 | Over60 | AgeUnknown

  /** The `kategori_usia` text of each band. */
  function AgeLabel(b: AgeBand): string {
    match b
    case Under30 => "Di bawah 30"
    case From30To40 => "30-40 tahun"
    case From41To50 => "41-50 tahun"
    case From51To60 => "51-60 tahun"
    case Over60 => "Di atas 60"
    case AgeUnknown => "Tidak diketahui"
  }

  /** The closed range of whole ages each band stands for; the unknown band has none. */
  function Lowest(b: AgeBand): Option<int> {
    match b
    case Under30 => None
    case From30To40 => Some(30)
    case From41To50 => Some(41)
    case From51To60 => Some(51)
    case Over60 => Some(61)
    case AgeUnknown => None
  }

  function Highest(b: AgeBand): Option<int> {
    match b
    case Under30 => Some(29)
    case From30To40 => Some(40)
    case From41To50 => Some(50)
    case From51To60 => Some(60)
    case Over60 => None
    case AgeUnknown => None
  }

  predicate InBand(u: int, b: AgeBand) {
    b != AgeUnknown &&
    (Lowest(b).None? || Lowest(b).value <= u) &&
    (Highest(b).None? || u <= Highest(b).value)
  }

  /** The `CASE` of `byUsia`: the first arm whose test holds; a NULL age fails every test. Every
      known whole age lands in a band whose range holds it (the arms leave no gap between 40 and 41,
      50 and 51, 60 and 61), and only the NULL age is unknown. */
  function AgeBandOf(usia: Option<int>): (b: AgeBand)
    ensures b == AgeUnknown <==> usia.None?
    ensures usia.Some? ==> InBand(usia.value, b)
  {
    match usia
    case None => AgeUnknown
    case Some(u) =>
      if u < 30 then Under30
      else if 30 <= u <= 40 then From30To40
      else if 41 <= u <= 50 then From41To50
      else if 51 <= u <= 60 then From51To60
      else if u > 60 then Over60
      else AgeUnknown
  }

  /** No age lies in two bands, so the order of the arms does not matter. */
  lemma BandsDisjoint(u: int, a: AgeBand, b: AgeBand)
    requires InBand(u, a) && InBand(u, b)
    ensures a == b
  {
  }

  /** Reads a `kategori_usia` text back. */
  function BandOfLabel(s: string): Option<AgeBand> {
    if s == "Di bawah 30" then Some(Under30)
    else if s == "30-40 tahun" then Some(From30To40)
    else if s == "41-50 tahun" then Some(From41To50)
    else if s == "51-60 tahun" then Some(From51To60)
    else if s == "Di atas 60" then Some(Over60)
    else if s == "Tidak diketahui" then Some(AgeUnknown)
    else None
  }

  /** Each label reads back as its band, so no two bands share a label and grouping by label is
      grouping by band. */
  lemma AgeLabelRoundTrip(b: AgeBand)
    ensures BandOfLabel(AgeLabel(b)) == Some(b)
  {
  }

  /** The bands of the rows, in table order. */
  function AgeBands(ms: seq<Member>): (bs: seq<AgeBand>)
    ensures |bs| == |ms|
    ensures forall i :: 0 <= i < |ms| ==> bs[i] == AgeBandOf(ms[i].usia)
  {
    if ms == [] then [] else [AgeBandOf(ms[0].usia)] + AgeBands(ms[1..])
  }

  /** The counts of `byUsia` add up to the number of rows: every row lands in one band. */
  lemma {:induction false} AgeCountsTotal(ms: seq<Member>)
    ensures var bs := AgeBands(ms);
      Tally(bs, Under30) + Tally(bs, From30To40) + Tally(bs, From41To50) +
      Tally(bs, From51To60) + Tally(bs, Over60) + Tally(bs, AgeUnknown) == |ms|
  {
    if ms != [] {
      AgeCountsTotal(ms[1..]);
      var bs := AgeBands(ms);
      assert bs[1..] == AgeBands(ms[1..]);
    }
  }

  // ---------------------------------------------------------------------------------------
  // Gender guess.

  datatype Gender = Female | Male | GenderUnknown

  /** The `gender` text of each guess. */
  function GenderLabel(g: Gender): string {
    match g
    case Female => "Perempuan"
    case Male => "Laki-laki"
    case GenderUnknown => "Tidak diketahui"
  }

  /** Reads a `gender` text back. */
  function GenderOfLabel(s: string): Option<Gender> {
    if s == "Perempuan" then Some(Female)
    else if s == "Laki-laki" then Some(Male)
    else if s == "Tidak diketahui" then Some(GenderUnknown)
    else None
  }

  /** Each label reads back as its guess, so grouping by label is grouping by guess. */
  lemma GenderLabelRoundTrip(g: Gender)
    ensures GenderOfLabel(GenderLabel(g)) == Some(g)
  {
  }

  /** The `CASE` of `byGender` on the ASCII-lower-cased name: the female patterns are tried first. */
  function GenderOf(nama: string): Gender {
    var n := Lower(nama);
    if Like(n, "hj.%") || Like(n, "%siti%") || Like(n, "%dewi%") || Like(n, "%sri%") then Female
    else if Like(n, "h.%") || Like(n, "%ahmad%") || Like(n, "%muhammad%") then Male
    else GenderUnknown
  }

  /** A female marker: the name starts with `hj.` or contains `siti`, `dewi` or `sri`, in any case. */
  ghost predicate FemaleMarked(nama: string) {
    PrefixCI("hj.", nama) || ContainsCI(nama, "siti") || ContainsCI(nama, "dewi") || ContainsCI(nama, "sri")
  }

  /** A male marker: the name starts with `h.` or contains `ahmad` or `muhammad`, in any case. */
  ghost predicate MaleMarked(nama: string) {
    PrefixCI("h.", nama) || ContainsCI(nama, "ahmad") || ContainsCI(nama, "muhammad")
  }

  lemma FemalePatterns(nama: string)
    ensures (Like(Lower(nama), "hj.%") || Like(Lower(nama), "%siti%") || Like(Lower(nama), "%dewi%") ||
             Like(Lower(nama), "%sri%")) <==> FemaleMarked(nama)
  {
    assert "hj.%" == "hj." + "%" && Literal("hj.");
    LowerLikePrefix(nama, "hj.");
    assert "%siti%" == "%" + "siti" + "%" && Literal("siti");
    LowerLikeInfix(nama, "siti");
    assert "%dewi%" == "%" + "dewi" + "%" && Literal("dewi");
    LowerLikeInfix(nama, "dewi");
    assert "%sri%" == "%" + "sri" + "%" && Literal("sri");
    LowerLikeInfix(nama, "sri");
  }

  lemma MalePatterns(nama: string)
    ensures (Like(Lower(nama), "h.%") || Like(Lower(nama), "%ahmad%") || Like(Lower(nama), "%muhammad%"))
            <==> MaleMarked(nama)
  {
    assert "h.%" == "h." + "%" && Literal("h.");
    LowerLikePrefix(nama, "h.");
    assert "%ahmad%" == "%" + "ahmad" + "%" && Literal("ahmad");
    LowerLikeInfix(nama, "ahmad");
    assert "%muhammad%" == "%" + "muhammad" + "%" && Literal("muhammad");
    LowerLikeInfix(nama, "muhammad");
  }

  /** The guess in terms of the markers: a female marker wins over a male one, and a name with
      neither is unknown. */
  lemma GenderMeaning(nama: string)
    ensures GenderOf(nama) == Female <==> FemaleMarked(nama)
    ensures GenderOf(nama) == Male <==> !FemaleMarked(nama) && MaleMarked(nama)
    ensures GenderOf(nama) == GenderUnknown <==> !FemaleMarked(nama) && !MaleMarked(nama)
  {
    FemalePatterns(nama);
    MalePatterns(nama);
  }

  /** A name carrying markers of both kinds is counted as female. */
  lemma FemaleFirstExample()
    ensures FemaleMarked("Hj. Ahmad") && MaleMarked("Hj. Ahmad")
    ensures GenderOf("Hj. Ahmad") == Female
  {
    var nama := "Hj. Ahmad";
    assert PrefixCI("hj.", nama);
    assert PrefixCI("ahmad", nama[4..]);
    GenderMeaning(nama);
  }

  /** The guesses of the rows, in table order. */
  function Genders(ms: seq<Member>): (gs: seq<Gender>)
    ensures |gs| == |ms|
    ensures forall i :: 0 <= i < |ms| ==> gs[i] == GenderOf(ms[i].nama)
  {
    if ms == [] then [] else [GenderOf(ms[0].nama)] + Genders(ms[1..])
  }

  /** The counts of `byGender` add up to the number of rows. */
  lemma {:induction false} GenderCountsTotal(ms: seq<Member>)
    ensures var gs := Genders(ms);
      Tally(gs, Female) + Tally(gs, Male) + Tally(gs, GenderUnknown) == |ms|
  {
    if ms != [] {
      GenderCountsTotal(ms[1..]);
      var gs := Genders(ms);
      assert gs[1..] == Genders(ms[1..]);
    }
  }
}

/**
 * The cup-format catalogue and the shot outcome of a stored record
 * (app/models.py). Each format names an ordered list of cup labels; a
 * format name outside the catalogue stands for no cups at all.
 */
module Catalog {

  const Pyramid := "Piramide"
  const Diamond := "Rombo"
  const Triangle := "Triangolo"
  const VerticalLine := "Linea Verticale"
  const HorizontalLine := "Linea Orizzontale"
  const SingleCentral := "Singolo Centrale"

  /** `CUP_DEFINITIONS`: format name to its cup labels, in rack order. */
  const CupDefinitions: map<string, seq<string>> := map[
    Pyramid := ["3 Sx", "3 Cen", "3 Dx", "2 Sx", "2 Dx", "1 Cen"],
    Diamond := ["R3 Cen", "R2 Sx", "R2 Dx", "R1 Cen"],
    Triangle := ["T2 Sx", "T2 Dx", "T1 Cen"],
    VerticalLine := ["LV 2", "LV 1"],
    HorizontalLine := ["LO Sx", "LO Dx"],
    SingleCentral := ["Singolo"]
  ]

  /** `CUP_DEFINITIONS.get(format, [])`. */
  function CupsFor(format: string): seq<string>
  {
    if format in CupDefinitions then CupDefinitions[format] else []
  }

  /** A label that belongs to some format of the catalogue. */
  predicate IsCatalogLabel(cup: string)
  {
    exists f :: f in CupDefinitions && cup in CupDefinitions[f]
  }

  /** The six formats, their sizes, and the empty list for any other name. */
  lemma CatalogShape()
    ensures CupDefinitions.Keys == {Pyramid, Diamond, Triangle, VerticalLine, HorizontalLine, SingleCentral}
    ensures |CupDefinitions.Keys| == 6
    ensures |CupsFor(Pyramid)| == 6 && |CupsFor(Diamond)| == 4 && |CupsFor(Triangle)| == 3
    ensures |CupsFor(VerticalLine)| == 2 && |CupsFor(HorizontalLine)| == 2 && |CupsFor(SingleCentral)| == 1
    ensures CupsFor(SingleCentral) == ["Singolo"]
    ensures forall f :: f !in CupDefinitions ==> CupsFor(f) == []
  {
  }

  /** Within a format no label repeats. */
  lemma LabelsDistinct(f: string)
    ensures forall i, j :: 0 <= i < j < |CupsFor(f)| ==> CupsFor(f)[i] != CupsFor(f)[j]
  {
  }

  /**
   * The format a label's leading characters name: pyramid labels start with
   * their row number, the others with `R`, `T`, `LV`, `LO` or `S`.
   */
  function FamilyOf(cup: string): string
  {
    if |cup| < 2 then ""
    else if '1' <= cup[0] <= '3' then Pyramid
    else if cup[0] == 'R' then Diamond
    else if cup[0] == 'T' then Triangle
    else if cup[0] == 'L' && cup[1] == 'V' then VerticalLine
    else if cup[0] == 'L' && cup[1] == 'O' then HorizontalLine
    else if cup[0] == 'S' then SingleCentral
    else ""
  }

  /** Every label of a format carries that format's prefix. */
  lemma LabelNamesFormat(f: string, cup: string)
    requires cup in CupsFor(f)
    ensures FamilyOf(cup) == f
  {
  }

  /** Two different formats share no label. */
  lemma LabelsDisjoint(f: string, g: string)
    requires f != g
    ensures forall c :: c in CupsFor(f) ==> c !in CupsFor(g)
  {
    forall c | c in CupsFor(f)
      ensures c !in CupsFor(g)
    {
      LabelNamesFormat(f, c);
      if c in CupsFor(g) {
        LabelNamesFormat(g, c);
      }
    }
  }

  /** No catalogue label starts with the letter O. */
  lemma CatalogLabelsAvoidO(cup: string)
    requires IsCatalogLabel(cup)
    ensures cup != [] && cup[0] != 'O'
  {
  }

  /** Outcome of a stored shot: `centro` wins over `bordo`, anything else is a miss. */
  datatype Shot = Miss | Bordo | Centro

  /** `PlayerRecord.outcome`. */
  function RecordOutcome(centro: string, bordo: string): (r: Shot)
    ensures r == Centro <==> centro == "Sì"
    ensures r == Bordo <==> centro != "Sì" && bordo == "Sì"
    ensures r == Miss <==> centro != "Sì" && bordo != "Sì"
  {
    if centro == "Sì" then Centro
    else if bordo == "Sì" then Bordo
    else Miss
  }
}

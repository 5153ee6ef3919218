/**
 * The fixed enumeration of input methods (IMs) a dictionary record may be
 * filed under: eleven symbolic names, each bound to a stable numeric id.
 */
module InputMethods {
  import opened Wrappers

  const ImCangjie: nat := 0
  const ImCheungBauer: nat := 1
  const ImCihaiT: nat := 2
  const ImFenn: nat := 3
  const ImFourCornerCode: nat := 4
  const ImFrequency: nat := 5
  const ImGradeLevel: nat := 6
  const ImHdzRadBreak: nat := 7
  const ImHkGlyph: nat := 8
  const ImPhonetic: nat := 9
  const ImTotalStrokes: nat := 10

  /** Number of known input methods; ids are 0 .. ImCount - 1. */
  const ImCount: nat := 11

  /** The name-to-id table. */
  const KnownIms: map<string, nat> := map[
    "kCangjie" := ImCangjie,
    "kCheungBauer" := ImCheungBauer,
    "kCihaiT" := ImCihaiT,
    "kFenn" := ImFenn,
    "kFourCornerCode" := ImFourCornerCode,
    "kFrequency" := ImFrequency,
    "kGradeLevel" := ImGradeLevel,
    "kHDZRadBreak" := ImHdzRadBreak,
    "kHKGlyph" := ImHkGlyph,
    "kPhonetic" := ImPhonetic,
    "kTotalStrokes" := ImTotalStrokes
  ]

  /**
   * The same names listed by id: the name at position i is the one bound to
   * id i. An independent statement of the table, used to check it.
   */
  const ImNames: seq<string> := [
    "kCangjie", "kCheungBauer", "kCihaiT", "kFenn", "kFourCornerCode",
    "kFrequency", "kGradeLevel", "kHDZRadBreak", "kHKGlyph", "kPhonetic",
    "kTotalStrokes"
  ]

  /** Looking a name up in the table; an unknown name has no id. */
  function LookupIm(name: string): (r: Option<nat>)
    ensures r.Some? <==> name in ImNames
    ensures r.Some? ==> r.value < ImCount && ImNames[r.value] == name
  {
    if name in KnownIms then Some(KnownIms[name]) else None
  }

  /** Every id the table hands out is in range, and the table has eleven entries. */
  lemma KnownImsInRange()
    ensures |KnownIms| == ImCount
    ensures forall name :: name in KnownIms ==> KnownIms[name] < ImCount
  {
  }

  /** No two names share an id. */
  lemma KnownImsInjective(a: string, b: string)
    requires a in KnownIms && b in KnownIms
    requires KnownIms[a] == KnownIms[b]
    ensures a == b
  {
    assert ImNames[KnownIms[a]] == a;
    assert ImNames[KnownIms[b]] == b;
  }

  /** Every id in 0 .. 10 is handed out, to the name listed at that position. */
  lemma KnownImsOnto(id: nat)
    requires id < ImCount
    ensures ImNames[id] in KnownIms && KnownIms[ImNames[id]] == id
  {
  }
}

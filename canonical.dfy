/** Canonical classification labels (src/canonical.py): free text is mapped
    onto one of SEGURA, ANOMALA or CONTAMINADA, and a label onto its numeric
    group and its display text. */
module Canonical {
  import opened Text
  import opened Values

  const SEGURA := "SEGURA"
  const ANOMALA := "ANOMALA"
  const CONTAMINADA := "CONTAMINADA"

  /** The values of CANONICAL_LABELS, in the dict's order. */
  const CANONICAL_LABELS: seq<string> := [SEGURA, ANOMALA, CONTAMINADA]

  const DISPLAY_LABELS: map<string, string> :=
    map[SEGURA := "Segura", ANOMALA := "An\U{F3}mala", CONTAMINADA := "Contaminada"]

  const GROUP_MAP: map<string, int> := map[SEGURA := 0, ANOMALA := 1, CONTAMINADA := 2]

  predicate IsCanonical(name: string)
  {
    name == SEGURA || name == ANOMALA || name == CONTAMINADA
  }

  /** The two `unicodedata` routines the normaliser relies on: NFKD
      decomposition and the "is a combining mark" test. */
  datatype UnicodeData = UnicodeData(nfkd: string -> string, combining: char -> bool)

  /** What the Unicode standard guarantees of these routines for ASCII text:
      NFKD leaves it unchanged and no ASCII character is a combining mark. */
  ghost predicate AsciiStable(u: UnicodeData)
  {
    && (forall s {:trigger u.nfkd(s)} :: IsAscii(s) ==> u.nfkd(s) == s)
    && (forall c {:trigger u.combining(c)} :: IsAsciiChar(c) ==> !u.combining(c))
  }

  /** `''.join(ch for ch in s if not unicodedata.combining(ch))` */
  function DropCombining(s: string, combining: char -> bool): (r: string)
    ensures |r| <= |s|
    ensures forall c :: c in r <==> c in s && !combining(c)
  {
    if s == [] then []
    else if combining(s[0]) then DropCombining(s[1..], combining)
    else [s[0]] + DropCombining(s[1..], combining)
  }

  /** `_normalize_text`: `None` gives the empty text; otherwise strip, NFKD,
      drop combining marks, upper-case. */
  function NormalizeText(raw: Option<string>, u: UnicodeData): (r: string)
    ensures raw.None? ==> r == ""
    ensures Upper(r) == r
  {
    match raw
    case None => ""
    case Some(s) =>
      var t := DropCombining(u.nfkd(Strip(s)), u.combining);
      UpperIdempotent(t);
      Upper(t)
  }

  /** The first label of `labels` that occurs in `txt` (the two
      `for c in CANONICAL_LABELS.values()` loops with early return). */
  function FirstLabelIn(labels: seq<string>, txt: string): (r: Option<string>)
    ensures r.Some? ==> r.value in labels && Contains(txt, r.value)
    ensures r.Some? ==> exists k :: 0 <= k < |labels| && labels[k] == r.value
                                    && forall j :: 0 <= j < k ==> !Contains(txt, labels[j])
    ensures r.None? ==> forall c :: c in labels ==> !Contains(txt, c)
  {
    if labels == [] then None
    else if Contains(txt, labels[0]) then
      assert labels[0] == labels[0];
      Some(labels[0])
    else
      var r := FirstLabelIn(labels[1..], txt);
      assert r.Some? ==> exists k :: 0 <= k < |labels| && labels[k] == r.value
                                     && forall j :: 0 <= j < k ==> !Contains(txt, labels[j]) by {
        if r.Some? {
          var k :| 0 <= k < |labels| - 1 && labels[1..][k] == r.value
                   && forall j :: 0 <= j < k ==> !Contains(txt, labels[1..][j]);
          assert labels[k + 1] == r.value;
          forall j | 0 <= j < k + 1 ensures !Contains(txt, labels[j]) {
            if j > 0 {
              assert labels[j] == labels[1..][j - 1];
            }
          }
        }
      }
      r
  }

  /** The keyword cascade of `normalize_classification`, on normalised text. */
  function ClassifyText(txt: string): (r: string)
    ensures IsCanonical(r)
  {
    if txt == "" then SEGURA
    else if Contains(txt, "CONTAMIN") || ([txt[0]] == "C" && Contains(txt, "CONTAMIN")) then CONTAMINADA
    else if Contains(txt, "ANOMAL") || Contains(txt, "ANOM") || Contains(txt, "AN\U{D3}M") then ANOMALA
    else if Contains(txt, "SEGUR") || txt == "OK" || Contains(txt, "SAFE") then SEGURA
    else match FirstLabelIn(CANONICAL_LABELS, txt)
      case Some(c) => c
      case None =>
        match FirstLabelIn(CANONICAL_LABELS, AsciiOnly(txt))
        case Some(c) => c
        case None => SEGURA
  }

  /** `normalize_classification`: always one of the three canonical labels. */
  function NormalizeClassification(raw: Option<string>, u: UnicodeData): (r: string)
    ensures IsCanonical(r)
  {
    ClassifyText(NormalizeText(raw, u))
  }

  /** `classification_group_from_label` */
  function GroupFromLabel(name: Option<string>, u: UnicodeData): (g: int)
    ensures 0 <= g <= 2
  {
    var lab := if name.Some? && name.value in GROUP_MAP then name.value
               else NormalizeClassification(name, u);
    if lab in GROUP_MAP then GROUP_MAP[lab] else 0
  }

  /** `display_label_from_label` */
  function DisplayFromLabel(name: Option<string>, u: UnicodeData): (d: string)
    ensures d in DISPLAY_LABELS.Values
  {
    var lab := if name.Some? && name.value in DISPLAY_LABELS then name.value
               else NormalizeClassification(name, u);
    if lab in DISPLAY_LABELS then DISPLAY_LABELS[lab] else DISPLAY_LABELS[SEGURA]
  }

  // ---------------------------------------------------------------------------
  // Properties

  lemma {:induction false} DropCombiningAscii(s: string, u: UnicodeData)
    requires AsciiStable(u) && IsAscii(s)
    ensures DropCombining(s, u.combining) == s
  {
    if s != [] {
      assert !u.combining(s[0]);
      DropCombiningAscii(s[1..], u);
    }
  }


  /** On ASCII input the normalised text is the stripped, upper-cased input. */
  lemma NormalizeTextAscii(s: string, u: UnicodeData)
    requires AsciiStable(u) && IsAscii(s)
    ensures NormalizeText(Some(s), u) == Upper(Strip(s))
  {
    var t := Strip(s);
    StripAscii(s);
    assert u.nfkd(t) == t;
    DropCombiningAscii(t, u);
  }

  /** `None`, the empty string and white space all give SEGURA. */
  lemma BlankIsSegura(raw: Option<string>, u: UnicodeData)
    requires AsciiStable(u)
    requires raw.Some? ==> forall i :: 0 <= i < |raw.value| ==> IsSpace(raw.value[i])
    ensures NormalizeClassification(raw, u) == SEGURA
  {
    if raw.Some? {
      AllSpaceStripsToEmpty(raw.value);
      assert IsAscii("");
      assert u.nfkd("") == "";
    }
  }

  /** Text containing CONTAMIN is CONTAMINADA, whatever else it says. */
  lemma ContaminWins(raw: Option<string>, u: UnicodeData)
    requires Contains(NormalizeText(raw, u), "CONTAMIN")
    ensures NormalizeClassification(raw, u) == CONTAMINADA
  {
  }

  /** "no contaminada" is classified CONTAMINADA: the negation is not seen. */
  lemma NegatedContaminadaIsContaminada(s: string, u: UnicodeData)
    requires AsciiStable(u) && s == "no contaminada"
    ensures NormalizeClassification(Some(s), u) == CONTAMINADA
  {
    NoContaminadaAscii(s);
    NoContaminadaStripped(s);
    UpperNoContaminada(s);
    NormalizeTextAscii(s, u);
    ContaminWins(Some(s), u);
  }

  lemma NoContaminadaAscii(s: string)
    requires s == "no contaminada"
    ensures IsAscii(s)
  {
  }

  lemma NoContaminadaStripped(s: string)
    requires s == "no contaminada"
    ensures Strip(s) == s
  {
    StripNoEdges(s);
  }

  lemma UpperNoContaminada(s: string)
    requires s == "no contaminada"
    ensures Contains(Upper(s), "CONTAMIN")
  {
    var t := Upper(s);
    assert t[3] == 'C' && t[4] == 'O' && t[5] == 'N' && t[6] == 'T';
    assert t[7] == 'A' && t[8] == 'M' && t[9] == 'I' && t[10] == 'N';
    assert OccursAt(t, "CONTAMIN", 3);
  }

  /** Normalised text that mentions no keyword, not even once non-ASCII
      characters are dropped, falls back to SEGURA. */
  lemma UnrecognisedIsSegura(txt: string)
    requires !Contains(txt, "CONTAMIN")
    requires !Contains(txt, "ANOM")
    requires !Contains(txt, "AN\U{D3}M")
    requires !Contains(AsciiOnly(txt), ANOMALA)
    requires !Contains(AsciiOnly(txt), CONTAMINADA)
    ensures ClassifyText(txt) == SEGURA
  {
    if Contains(txt, "ANOMAL") {
      assert "ANOM" + "AL" == "ANOMAL";
      ContainsPrefix(txt, "ANOM", "AL");
    }
    if Contains(txt, ANOMALA) {
      assert "ANOM" + "ALA" == ANOMALA;
      ContainsPrefix(txt, "ANOM", "ALA");
    }
    if Contains(txt, CONTAMINADA) {
      assert "CONTAMIN" + "ADA" == CONTAMINADA;
      ContainsPrefix(txt, "CONTAMIN", "ADA");
    }
  }

  /** The keyword cascade maps each canonical label to itself. */
  lemma ClassifyCanonical(name: string)
    requires IsCanonical(name)
    ensures ClassifyText(name) == name
  {
    if name == SEGURA {
      NotContainsByFirst(name, "ANOM");
      NotContainsByFirst(name, "AN\U{D3}M");
      NotContainsByFirst(name, "ANOMAL");
      assert OccursAt(name, "SEGUR", 0);
    } else if name == ANOMALA {
      assert OccursAt(name, "ANOMAL", 0);
    } else {
      assert OccursAt(name, "CONTAMIN", 0);
    }
  }

  /** ASCII text without lower-case letters or surrounding white space is
      already normalised. */
  lemma NormalizeFixed(s: string, u: UnicodeData)
    requires AsciiStable(u) && IsAscii(s)
    requires s == [] || (!IsSpace(s[0]) && !IsSpace(s[|s| - 1]))
    requires forall i :: 0 <= i < |s| ==> !('a' <= s[i] <= 'z')
    ensures NormalizeText(Some(s), u) == s
  {
    NormalizeTextAscii(s, u);
    StripNoEdges(s);
    UpperFixed(s);
  }

  /** Each canonical label normalises to itself. */
  lemma CanonicalIsFixed(name: string, u: UnicodeData)
    requires AsciiStable(u) && IsCanonical(name)
    ensures NormalizeClassification(Some(name), u) == name
  {
    NormalizeFixed(name, u);
    ClassifyCanonical(name);
  }

  /** Normalising twice is normalising once. */
  lemma NormalizeIdempotent(raw: Option<string>, u: UnicodeData)
    requires AsciiStable(u)
    ensures NormalizeClassification(Some(NormalizeClassification(raw, u)), u)
            == NormalizeClassification(raw, u)
  {
    CanonicalIsFixed(NormalizeClassification(raw, u), u);
  }

  /** ASCII inputs that agree up to case get the same label. */
  lemma CaseInsensitive(s: string, t: string, u: UnicodeData)
    requires AsciiStable(u) && IsAscii(s) && IsAscii(t)
    requires Upper(s) == Upper(t)
    ensures NormalizeClassification(Some(s), u) == NormalizeClassification(Some(t), u)
  {
    NormalizeTextAscii(s, u);
    NormalizeTextAscii(t, u);
    StripUpperCommute(s);
    StripUpperCommute(t);
  }

  /** The group is GROUP_MAP of the normalised label. */
  lemma GroupAgreesWithNormalize(name: Option<string>, u: UnicodeData)
    requires AsciiStable(u)
    ensures GroupFromLabel(name, u) == GROUP_MAP[NormalizeClassification(name, u)]
  {
    if name.Some? && name.value in GROUP_MAP {
      CanonicalIsFixed(name.value, u);
    }
  }

  /** The display text is DISPLAY_LABELS of the normalised label. */
  lemma DisplayAgreesWithNormalize(name: Option<string>, u: UnicodeData)
    requires AsciiStable(u)
    ensures DisplayFromLabel(name, u) == DISPLAY_LABELS[NormalizeClassification(name, u)]
  {
    if name.Some? && name.value in DISPLAY_LABELS {
      CanonicalIsFixed(name.value, u);
    }
  }
}

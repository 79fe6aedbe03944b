/**
 * The seven photo slots of a vehicle QA submission and the pure helpers of
 * js/qa-upload.js that work on slot names: the default label, the file-input
 * id, the missing-slot list and its human-readable formatting.
 */
module SlotNames {
  import opened JsText

  /** The required slots, in the order the submit check lists them. */
  const RequiredSlots: seq<string> := [
    "exterior_front", "exterior_back", "exterior_left", "exterior_right",
    "interior_dashboard", "interior_seats", "interior_floor"
  ]

  /** The file-input ids of the upload form, slot by slot. */
  const FormInputIds: seq<string> := [
    "exterior-front", "exterior-back", "exterior-left", "exterior-right",
    "interior-dashboard", "interior-seats", "interior-floor"
  ]

  /** The labels an empty upload box shows, slot by slot. */
  const SlotLabels: seq<string> := [
    "Front View", "Back View", "Left Side", "Right Side", "Dashboard", "Seats", "Floor Mats"
  ]

  /** The slot names as the missing-photos message shows them. */
  const MissingDisplayNames: seq<string> := [
    "Exterior Front", "Exterior Back", "Exterior Left", "Exterior Right",
    "Interior Dashboard", "Interior Seats", "Interior Floor"
  ]

  function RequiredSet(): set<string> {
    set s | s in RequiredSlots
  }

  lemma RequiredSlotsDistinct()
    ensures forall i, j :: 0 <= i < j < |RequiredSlots| ==> RequiredSlots[i] != RequiredSlots[j]
  {
  }

  /** There are exactly seven required slots. */
  lemma {:induction false} RequiredSetSize()
    ensures |RequiredSet()| == 7
  {
    assert RequiredSet() == {RequiredSlots[0], RequiredSlots[1], RequiredSlots[2], RequiredSlots[3],
                             RequiredSlots[4], RequiredSlots[5], RequiredSlots[6]};
  }

  /** `getDefaultLabel`: the label of a known slot, "Upload" for any other name. */
  function DefaultLabel(slot: string): (r: string)
    ensures r != ""
    ensures slot !in RequiredSlots <==> r == "Upload"
    ensures forall i :: 0 <= i < |RequiredSlots| && slot == RequiredSlots[i] ==> r == SlotLabels[i]
  {
    if slot == "exterior_front" then "Front View"
    else if slot == "exterior_back" then "Back View"
    else if slot == "exterior_left" then "Left Side"
    else if slot == "exterior_right" then "Right Side"
    else if slot == "interior_dashboard" then "Dashboard"
    else if slot == "interior_seats" then "Seats"
    else if slot == "interior_floor" then "Floor Mats"
    else "Upload"
  }

  /** Different slots never share a label, so the label identifies the slot. */
  lemma DefaultLabelInjective(a: string, b: string)
    requires a in RequiredSlots && b in RequiredSlots && a != b
    ensures DefaultLabel(a) != DefaultLabel(b)
  {
  }

  function Dash(c: char): char {
    if c == '_' then '-' else c
  }

  /** The file-input id of a slot: every `_` becomes `-`. */
  function InputId(slot: string): (r: string)
    ensures |r| == |slot|
    ensures forall i :: 0 <= i < |slot| ==> r[i] == Dash(slot[i])
    ensures '_' !in r
  {
    seq(|slot|, i requires 0 <= i < |slot| => Dash(slot[i]))
  }

  /** Each required slot maps to the id of its file input in the upload form. */
  lemma InputIdsMatchForm()
    ensures forall i :: 0 <= i < |RequiredSlots| ==> InputId(RequiredSlots[i]) == FormInputIds[i]
  {
  }

  /** Index of the first `_` in `s`, or |s| when there is none. */
  function FirstUnderscore(s: string): (k: nat)
    ensures k <= |s|
    ensures k < |s| ==> s[k] == '_'
    ensures forall i :: 0 <= i < k ==> s[i] != '_'
  {
    if s == [] then 0 else if s[0] == '_' then 0 else 1 + FirstUnderscore(s[1..])
  }

  /** `s.replace('_', ' ')`: a string pattern replaces only its first occurrence. */
  function ReplaceFirstUnderscore(s: string): (r: string)
    ensures |r| == |s|
    ensures forall i :: 0 <= i < |s| ==> r[i] == (if i == FirstUnderscore(s) then ' ' else s[i])
  {
    var k := FirstUnderscore(s);
    if k < |s| then s[..k] + " " + s[k + 1..] else s
  }

  /** `\w` of a regular expression without the unicode flag. */
  predicate IsWordChar(c: char) {
    ('a' <= c <= 'z') || ('A' <= c <= 'Z') || ('0' <= c <= '9') || c == '_'
  }

  /** Position `i` of `s` is matched by `\b\w`: a word character that starts a word. */
  predicate StartsWord(s: string, i: int)
    requires 0 <= i < |s|
  {
    IsWordChar(s[i]) && (i == 0 || !IsWordChar(s[i - 1]))
  }

  /** `s.replace(/\b\w/g, l => l.toUpperCase())`. */
  function CapitalizeWords(s: string): (r: string)
    ensures |r| == |s|
    ensures forall i :: 0 <= i < |s| ==> r[i] == (if StartsWord(s, i) then UpperAscii(s[i]) else s[i])
  {
    seq(|s|, i requires 0 <= i < |s| => if StartsWord(s, i) then UpperAscii(s[i]) else s[i])
  }

  /** How the missing-photos message writes a slot name. */
  function MissingName(slot: string): (r: string)
    ensures |r| == |slot|
  {
    CapitalizeWords(ReplaceFirstUnderscore(slot))
  }

  /**
   * Only the first `_` becomes a space; any later `_` stays and glues the following
   * letter to the previous word, which is then not capitalised.
   */
  lemma MissingNameKeepsLaterUnderscores(slot: string, i: int)
    requires FirstUnderscore(slot) < i < |slot| && slot[i] == '_'
    ensures MissingName(slot)[i] == '_'
    ensures i + 1 < |slot| ==> MissingName(slot)[i + 1] == slot[i + 1]
  {
  }

  predicate LowerWord(w: string) {
    w != [] && forall i :: 0 <= i < |w| ==> 'a' <= w[i] <= 'z'
  }

  /** `w` with its first letter capitalised. */
  function Capitalized(w: string): string
    requires w != []
  {
    [UpperAscii(w[0])] + w[1..]
  }

  lemma {:induction false} FirstUnderscoreOfJoin(a: string, b: string)
    requires '_' !in a
    ensures FirstUnderscore(a + "_" + b) == |a|
  {
    var s := a + "_" + b;
    assert s[|a|] == '_';
    assert forall i :: 0 <= i < |a| ==> s[i] == a[i];
  }

  lemma {:induction false} ReplaceFirstOfJoin(a: string, b: string)
    requires '_' !in a
    ensures ReplaceFirstUnderscore(a + "_" + b) == a + " " + b
  {
    FirstUnderscoreOfJoin(a, b);
    var s := a + "_" + b;
    assert forall i :: 0 <= i < |s| ==> ReplaceFirstUnderscore(s)[i] == (a + " " + b)[i];
  }

  lemma {:induction false} CapitalizeTwoWords(a: string, b: string)
    requires LowerWord(a) && LowerWord(b)
    ensures CapitalizeWords(a + " " + b) == Capitalized(a) + " " + Capitalized(b)
  {
    var s := a + " " + b;
    var want := Capitalized(a) + " " + Capitalized(b);
    forall i | 0 <= i < |s| ensures CapitalizeWords(s)[i] == want[i] {
      if i < |a| {
        assert s[i] == a[i];
      } else if i > |a| {
        assert s[i] == b[i - |a| - 1];
      }
    }
  }

  /** `a_b` of two lower-case words is written as the two capitalised words separated by a space. */
  lemma MissingNameOfSlot(a: string, b: string)
    requires LowerWord(a) && LowerWord(b)
    ensures MissingName(a + "_" + b) == Capitalized(a) + " " + Capitalized(b)
  {
    ReplaceFirstOfJoin(a, b);
    CapitalizeTwoWords(a, b);
  }

  /** The two words of each required slot, in order. */
  const SlotWords: seq<(string, string)> := [
    ("exterior", "front"), ("exterior", "back"), ("exterior", "left"), ("exterior", "right"),
    ("interior", "dashboard"), ("interior", "seats"), ("interior", "floor")
  ]

  lemma CapitalizedSlotWords()
    ensures Capitalized("exterior") == "Exterior" && Capitalized("interior") == "Interior"
    ensures Capitalized("front") == "Front" && Capitalized("back") == "Back" && Capitalized("left") == "Left"
    ensures Capitalized("right") == "Right" && Capitalized("dashboard") == "Dashboard"
    ensures Capitalized("seats") == "Seats" && Capitalized("floor") == "Floor"
  {
  }

  /** Each slot is two lower-case words joined by `_`. */
  lemma SlotWordsSpelling()
    ensures forall i :: 0 <= i < |SlotWords| ==> LowerWord(SlotWords[i].0) && LowerWord(SlotWords[i].1)
    ensures forall i :: 0 <= i < |SlotWords| ==> RequiredSlots[i] == SlotWords[i].0 + "_" + SlotWords[i].1
  {
  }

  /** Each display name is the slot's two words, capitalised. */
  lemma SlotWordsDisplay()
    ensures forall i :: 0 <= i < |SlotWords| ==>
              MissingDisplayNames[i] == Capitalized(SlotWords[i].0) + " " + Capitalized(SlotWords[i].1)
  {
    CapitalizedSlotWords();
  }

  /** The required slots read "Exterior Front", "Interior Seats", ... in the message. */
  lemma MissingNamesOfRequiredSlots()
    ensures forall i :: 0 <= i < |RequiredSlots| ==> MissingName(RequiredSlots[i]) == MissingDisplayNames[i]
  {
    SlotWordsSpelling();
    SlotWordsDisplay();
    forall i | 0 <= i < |RequiredSlots|
      ensures MissingName(RequiredSlots[i]) == MissingDisplayNames[i]
    {
      MissingNameOfSlot(SlotWords[i].0, SlotWords[i].1);
    }
  }

  /** `r` is `req` with some elements deleted and the rest kept in order. */
  ghost predicate SubsequenceOf(r: seq<string>, req: seq<string>)
    decreases |req|
  {
    if r == [] then true
    else if req == [] then false
    else (r[0] == req[0] && SubsequenceOf(r[1..], req[1..])) || SubsequenceOf(r, req[1..])
  }

  /** The names of `req`, in order, that are not keys: `requiredTypes.filter(t => !uploadedTypes.includes(t))`. */
  function Absent(req: seq<string>, keys: set<string>): (r: seq<string>)
    ensures forall s :: s in r <==> s in req && s !in keys
    ensures SubsequenceOf(r, req)
    ensures |r| <= |req|
  {
    if req == [] then []
    else if req[0] !in keys then [req[0]] + Absent(req[1..], keys)
    else Absent(req[1..], keys)
  }

  /** The required slots that have no uploaded image, in the fixed order. */
  function MissingSlots(keys: set<string>): (r: seq<string>)
    ensures forall s :: s in r <==> s in RequiredSlots && s !in keys
    ensures SubsequenceOf(r, RequiredSlots)
  {
    Absent(RequiredSlots, keys)
  }

  /** Nothing is missing exactly when every required slot is a key. */
  lemma MissingEmptyIffComplete(keys: set<string>)
    ensures MissingSlots(keys) == [] <==> RequiredSet() <= keys
  {
    var r := MissingSlots(keys);
    if r != [] {
      assert r[0] in r;
    } else {
      forall s | s in RequiredSet() ensures s in keys {
        assert s !in r;
      }
    }
  }

  /** A session whose keys are slot names holds at most seven images. */
  lemma {:induction false} SlotCountBounded(keys: set<string>)
    requires keys <= RequiredSet()
    ensures |keys| <= 7
  {
    RequiredSetSize();
    SubsetSize(keys, RequiredSet());
  }

  /**
   * When every key is a slot name, "seven images uploaded" (the condition that enables the
   * submit button) and "no slot missing" (the submit check) coincide.
   */
  lemma {:induction false} CountSevenIffComplete(keys: set<string>)
    requires keys <= RequiredSet()
    ensures |keys| == 7 <==> MissingSlots(keys) == []
  {
    RequiredSetSize();
    MissingEmptyIffComplete(keys);
    SubsetSize(keys, RequiredSet());
    if MissingSlots(keys) == [] {
      assert keys == RequiredSet();
    }
  }

  /** A subset is no larger, and a subset of the same size is the whole set. */
  lemma SubsetSize<T>(a: set<T>, b: set<T>)
    requires a <= b
    ensures |a| <= |b|
    ensures |a| == |b| ==> a == b
  {
    assert b == a + (b - a);
    assert |b| == |a| + |b - a|;
  }
}

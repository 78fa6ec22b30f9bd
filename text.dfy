/**
 * The two string operations the search relies on: lower-casing
 * (`toLocaleLowerCase`, here folded over ASCII letters only) and substring
 * containment (`String.prototype.includes`).
 */
module Text {

  /** Lower-case form of one character: 'A'..'Z' become 'a'..'z', everything else is kept. */
  function Lower(c: char): (d: char)
    ensures 'A' <= c <= 'Z' ==> 'a' <= d <= 'z' && d as int - c as int == 'a' as int - 'A' as int
    ensures !('A' <= c <= 'Z') ==> d == c
  {
    if 'A' <= c <= 'Z' then (c as int - 'A' as int + 'a' as int) as char else c
  }

  /** Lower-case form of a string, character by character. */
  function LowerCase(s: string): (r: string)
  {
    seq(|s|, i requires 0 <= i < |s| => Lower(s[i]))
  }

  /** Lower-casing twice is lower-casing once. */
  lemma LowerCaseIdempotent(s: string)
    ensures LowerCase(LowerCase(s)) == LowerCase(s)
  {
    var once := LowerCase(s);
    assert forall i :: 0 <= i < |once| ==> Lower(once[i]) == once[i];
  }

  /** Does `sub` occur in `text` starting at position 0, 1, 2, ...? */
  function Includes(text: string, sub: string): bool
    decreases |text|
  {
    sub <= text || (text != [] && Includes(text[1..], sub))
  }

  /** `sub` occurs in `text` at offset `i`. */
  ghost predicate OccursAt(text: string, sub: string, i: nat)
  {
    i + |sub| <= |text| && text[i..i + |sub|] == sub
  }

  /** Shifting the text by one character shifts every occurrence by one. */
  lemma OccursAtTail(text: string, sub: string, i: nat)
    requires text != []
    ensures OccursAt(text[1..], sub, i) <==> OccursAt(text, sub, i + 1)
  {
    if i + |sub| <= |text[1..]| {
      assert text[1..][i..i + |sub|] == text[i + 1..i + 1 + |sub|];
    }
  }

  /** `Includes` is exactly "occurs at some offset". */
  lemma {:induction false} IncludesIff(text: string, sub: string)
    ensures Includes(text, sub) <==> exists i: nat :: OccursAt(text, sub, i)
    decreases |text|
  {
    if sub <= text {
      assert OccursAt(text, sub, 0);
    } else if text == [] {
      forall i: nat ensures !OccursAt(text, sub, i) {
      }
    } else {
      IncludesIff(text[1..], sub);
      if Includes(text[1..], sub) {
        var i: nat :| OccursAt(text[1..], sub, i);
        OccursAtTail(text, sub, i);
      } else {
        forall i: nat ensures !OccursAt(text, sub, i) {
          if i > 0 {
            OccursAtTail(text, sub, i - 1);
          }
        }
      }
    }
  }

  /** Every character of a contained string occurs in the text. */
  lemma {:induction false} IncludesKeepsCharacters(text: string, sub: string)
    requires Includes(text, sub)
    ensures forall i :: 0 <= i < |sub| ==> sub[i] in text
    decreases |text|
  {
    if !(sub <= text) {
      IncludesKeepsCharacters(text[1..], sub);
      forall i | 0 <= i < |sub| ensures sub[i] in text {
        var k :| 0 <= k < |text[1..]| && text[1..][k] == sub[i];
        assert text[k + 1] == sub[i];
      }
    }
  }

  /** The empty string is contained in every string. */
  lemma IncludesEmpty(text: string)
    ensures Includes(text, "")
  {
  }

  // Worked examples: the query "milk" and "bread" against the text "Buy milk".

  /** A string without upper-case letters is its own lower-case form. */
  lemma LowerCaseNoUpper(s: string)
    requires forall i :: 0 <= i < |s| ==> !('A' <= s[i] <= 'Z')
    ensures LowerCase(s) == s
  {
  }

  lemma LowerCaseExamples()
    ensures LowerCase("Buy milk") == "buy milk"
    ensures LowerCase("milk") == "milk" && LowerCase("bread") == "bread"
  {
    var upper: string, lower: string := "Buy milk", "buy milk";
    var r := LowerCase(upper);
    forall i | 0 <= i < 8 ensures r[i] == lower[i] {
    }
    LowerCaseNoUpper("milk");
    LowerCaseNoUpper("bread");
  }

  lemma MilkInBuyMilk()
    ensures Includes("buy milk", "milk")
  {
    var text: string, sub: string := "buy milk", "milk";
    assert OccursAt(text, sub, 4);
    IncludesIff(text, sub);
  }

  /** "bread" is not in "buy milk": its 'r' does not occur there. */
  lemma BreadNotInBuyMilk()
    ensures !Includes("buy milk", "bread")
  {
    var text: string, sub: string := "buy milk", "bread";
    assert sub[1] !in text;
    if Includes(text, sub) {
      IncludesKeepsCharacters(text, sub);
      assert false;
    }
  }
}

/** The tag classifier of `createTagSpan` (script.js:135-157): a tag's text
    is lower-cased and tested against keyword rules in a fixed order; the
    first rule whose keyword occurs in it picks the tag's style class. */
module Tags {

  /** The style classes a tag can receive, in rule order. */
  datatype TagClass = Prog | Pm | Art | Design | Java | Web | Default

  /** Position of the class's rule in the if/else chain. */
  function Rank(c: TagClass): nat {
    match c
    case Prog => 0
    case Pm => 1
    case Art => 2
    case Design => 3
    case Java => 4
    case Web => 5
    case Default => 6
  }

  /** The keywords whose presence selects the class (the fallback has none). */
  function Keywords(c: TagClass): seq<string> {
    match c
    case Prog => ["programmer", "developer"]
    case Pm => ["manager"]
    case Art => ["artist"]
    case Design => ["design"]
    case Java => ["java"]
    case Web => ["backend"]
    case Default => []
  }

  /** The CSS class name written to the span's `className`. */
  function ClassName(c: TagClass): (r: string)
    ensures |r| > 4 && r[..4] == "tag-"
  {
    match c
    case Prog => "tag-prog"
    case Pm => "tag-pm"
    case Art => "tag-art"
    case Design => "tag-design"
    case Java => "tag-java"
    case Web => "tag-web"
    case Default => "tag-default"
  }

  /** Different classes get different class names. */
  lemma ClassNamesDistinct(c: TagClass, d: TagClass)
    requires c != d
    ensures ClassName(c) != ClassName(d)
  {
  }

  predicate IsUpper(c: char) {
    'A' <= c <= 'Z'
  }

  /** `toLowerCase` on one character, over ASCII. */
  function LowerChar(c: char): char {
    if IsUpper(c) then (c as int + 32) as char else c
  }

  /** `String.prototype.toLowerCase`, over ASCII. */
  function ToLower(s: string): (r: string)
    ensures |r| == |s|
    ensures forall i :: 0 <= i < |s| ==> r[i] == LowerChar(s[i])
    ensures forall i :: 0 <= i < |r| ==> !IsUpper(r[i])
  {
    if s == [] then [] else [LowerChar(s[0])] + ToLower(s[1..])
  }

  /** `sub` occurs in `s` starting at index `i`. */
  predicate OccursAt(s: string, sub: string, i: int) {
    0 <= i && i + |sub| <= |s| && s[i..i + |sub|] == sub
  }

  /** `String.prototype.includes`: scans `s` from the left for `sub`. */
  function Includes(s: string, sub: string): (r: bool)
    ensures r <==> exists i :: OccursAt(s, sub, i)
    decreases |s|
  {
    if |sub| > |s| then
      false
    else if s[..|sub|] == sub then
      assert OccursAt(s, sub, 0);
      true
    else
      var r := Includes(s[1..], sub);
      assert r ==> exists i :: OccursAt(s, sub, i) by {
        if r {
          var j :| OccursAt(s[1..], sub, j);
          assert s[1..][j..j + |sub|] == s[j + 1..j + 1 + |sub|];
          assert OccursAt(s, sub, j + 1);
        }
      }
      assert (exists i :: OccursAt(s, sub, i)) ==> r by {
        if exists i :: OccursAt(s, sub, i) {
          var i :| OccursAt(s, sub, i);
          assert i != 0;
          assert s[1..][i - 1..i - 1 + |sub|] == s[i..i + |sub|];
          assert OccursAt(s[1..], sub, i - 1);
        }
      }
      r
  }

  /** Some keyword of class `c` occurs in the lower-cased text `low`. */
  predicate RuleFires(low: string, c: TagClass) {
    exists k :: 0 <= k < |Keywords(c)| && Includes(low, Keywords(c)[k])
  }

  /** `c` is what an ordered first-match rule table yields for `low`:
      its own rule fires (unless it is the fallback) and no earlier rule does. */
  predicate FirstMatch(low: string, c: TagClass) {
    && (c != Default ==> RuleFires(low, c))
    && forall d :: Rank(d) < Rank(c) ==> !RuleFires(low, d)
  }

  /** The class `createTagSpan` assigns to a tag (script.js:140-155). */
  function Classify(tag: string): (r: TagClass)
    ensures FirstMatch(ToLower(tag), r)
  {
    var low := ToLower(tag);
    if Includes(low, "programmer") || Includes(low, "developer") then
      assert Includes(low, Keywords(Prog)[0]) || Includes(low, Keywords(Prog)[1]);
      Prog
    else if Includes(low, "manager") then
      assert Includes(low, Keywords(Pm)[0]);
      Pm
    else if Includes(low, "artist") then
      assert Includes(low, Keywords(Art)[0]);
      Art
    else if Includes(low, "design") then
      assert Includes(low, Keywords(Design)[0]);
      Design
    else if Includes(low, "java") then
      assert Includes(low, Keywords(Java)[0]);
      Java
    else if Includes(low, "backend") then
      assert Includes(low, Keywords(Web)[0]);
      Web
    else
      Default
  }

  /** Exactly one class satisfies the first-match rule, so the classifier's
      answer is the only one the ordered rule table allows. */
  lemma FirstMatchUnique(low: string, c: TagClass, d: TagClass)
    requires FirstMatch(low, c) && FirstMatch(low, d)
    ensures c == d
  {
  }

  /** Lower-casing a lower-cased string changes nothing. */
  lemma ToLowerIdempotent(s: string)
    ensures ToLower(ToLower(s)) == ToLower(s)
  {
  }

  /** Two tags that differ only in the case of ASCII letters get the same class. */
  lemma ClassifyIgnoresCase(a: string, b: string)
    requires |a| == |b|
    requires forall i :: 0 <= i < |a| ==> LowerChar(a[i]) == LowerChar(b[i])
    ensures Classify(a) == Classify(b)
  {
    assert ToLower(a) == ToLower(b);
  }

  /** Classifying the lower-cased tag gives the same class as the tag itself. */
  lemma ClassifyLowered(tag: string)
    ensures Classify(ToLower(tag)) == Classify(tag)
  {
    ToLowerIdempotent(tag);
  }

  /** A string whose characters lower-case one by one to `t` lower-cases to `t`. */
  lemma ToLowerIs(s: string, t: string)
    requires |s| == |t|
    requires forall i :: 0 <= i < |s| ==> LowerChar(s[i]) == t[i]
    ensures ToLower(s) == t
  {
  }

  /** `sub` does not occur in `s` if, at every place it could start, its
      `j`-th character disagrees with the character of `s` under it. */
  lemma NotIncludes(s: string, sub: string, j: int)
    requires 0 <= j < |sub|
    requires forall i :: j <= i <= |s| - |sub| + j ==> s[i] != sub[j]
    ensures !Includes(s, sub)
  {
    forall i | OccursAt(s, sub, i) ensures s[i + j] == sub[j] {
      assert s[i..i + |sub|][j] == s[i + j];
    }
  }

  /** The keyword facts about the lower-cased tag "project manager". */
  lemma ProjectManagerKeywords(low: string)
    requires low == "project manager"
    ensures !Includes(low, "programmer") && !Includes(low, "developer")
    ensures Includes(low, "manager")
  {
    NotIncludes(low, "programmer", 3);
    NotIncludes(low, "developer", 2);
    assert OccursAt(low, "manager", 8);
  }

  /** "Lead Developer" is a programmer tag. */
  // The tag comes in through `requires`: stated as a literal in the
  // `ensures`, it makes the verifier unfold `Classify` on a constant string
  // and run out of resource. The same holds for the next lemma.
  lemma LeadDeveloperIsProg(tag: string)
    requires tag == "Lead Developer"
    ensures Classify(tag) == Prog
  {
    ToLowerIs(tag, "lead developer");
    assert OccursAt(ToLower(tag), "developer", 5);
  }

  /** "Project Manager" is a manager tag: neither programmer keyword occurs
      in it, so the second rule decides. */
  lemma ProjectManagerIsPm(tag: string)
    requires tag == "Project Manager"
    ensures Classify(tag) == Pm
  {
    ToLowerIs(tag, "project manager");
    ProjectManagerKeywords(ToLower(tag));
  }
}

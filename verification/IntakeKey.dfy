/** The idempotency key: the five fields joined with NUL and hashed. */
module IntakeKey {
  const NUL := '\0'

  function Join(fields: seq<string>): string
    requires fields != []
  {
    if |fields| == 1 then fields[0] else fields[0] + [NUL] + Join(fields[1..])
  }

  /** The parts between the NULs, where `part` is the one read so far. */
  function Split(text: string, part: string): seq<string> {
    if text == "" then [part]
    else if text[0] == NUL then [part] + Split(text[1..], "")
    else Split(text[1..], part + [text[0]])
  }

  predicate Clean(field: string) { NUL !in field }

  lemma {:induction false} SplitPrefix(field: string, rest: string, part: string)
    requires Clean(field)
    ensures Split(field + rest, part) == Split(rest, part + field)
  {
    if field == "" {
      assert field + rest == rest && part + field == part;
    } else {
      assert field[0] in field && forall x :: x in field[1..] ==> x in field;
      assert (field + rest)[1..] == field[1..] + rest;
      SplitPrefix(field[1..], rest, part + [field[0]]);
      assert part + [field[0]] + field[1..] == part + field;
    }
  }

  /** Splitting undoes joining when no field contains the separator. */
  lemma {:induction false} SplitUndoesJoin(fields: seq<string>)
    requires fields != [] && forall f :: f in fields ==> Clean(f)
    ensures Split(Join(fields), "") == fields
  {
    var first := fields[0];
    assert first in fields;
    if |fields| == 1 {
      SplitPrefix(first, "", "");
      assert first + "" == first && "" + first == first;
    } else {
      var rest := [NUL] + Join(fields[1..]);
      SplitPrefix(first, rest, "");
      assert Join(fields) == first + rest && "" + first == first;
      assert rest[1..] == Join(fields[1..]);
      SplitUndoesJoin(fields[1..]);
    }
  }

  datatype Intake = Intake(source: string, problem: string, language: string, externalVerdict: string) {
    function Fields(version: string): seq<string> { Parts() + [version] }

    function Parts(): seq<string> { [source, problem, language, externalVerdict] }

    predicate IsClean() { Clean(source) && Clean(problem) && Clean(language) && Clean(externalVerdict) }
  }

  function Key(hash: string -> string, intake: Intake, version: string): string {
    hash(Join(intake.Fields(version)))
  }

  ghost predicate Injective(hash: string -> string) {
    forall a, b :: hash(a) == hash(b) ==> a == b
  }

  /** With a hash that does not collide, equal keys mean the same submission under the same pipeline version. */
  lemma KeyIdentifiesSubmission(hash: string -> string, x: Intake, y: Intake, v: string, w: string)
    requires Injective(hash)
    requires forall f :: f in x.Fields(v) + y.Fields(w) ==> Clean(f)
    ensures Key(hash, x, v) == Key(hash, y, w) <==> x == y && v == w
  {
    if Key(hash, x, v) == Key(hash, y, w) {
      assert forall f :: f in x.Fields(v) || f in y.Fields(w) ==> f in x.Fields(v) + y.Fields(w);
      SplitUndoesJoin(x.Fields(v));
      SplitUndoesJoin(y.Fields(w));
      var p, q := x.Fields(v), y.Fields(w);
      assert p == q;
      assert p[0] == q[0] && p[1] == q[1] && p[2] == q[2] && p[3] == q[3] && p[4] == q[4];
    }
  }

  // -------------------------------------------------------------- collisions

  function Glue(left: string, right: string): string { left + [NUL] + right }

  lemma GlueAssociates(a: string, b: string, c: string)
    ensures Glue(Glue(a, b), c) == Glue(a, Glue(b, c))
  {}

  lemma JoinOfFour(x: Intake)
    ensures Join(x.Parts()) == Glue(x.source, Glue(x.problem, Glue(x.language, x.externalVerdict)))
  {
    var two, three := [x.language, x.externalVerdict], [x.problem, x.language, x.externalVerdict];
    assert two[1..] == [x.externalVerdict] && three[1..] == two && x.Parts()[1..] == three;
    assert Join(two) == Glue(x.language, x.externalVerdict);
    assert Join(three) == Glue(x.problem, Join(two));
  }

  lemma {:induction false} JoinAppend(fields: seq<string>, last: string)
    requires fields != []
    ensures Join(fields + [last]) == Glue(Join(fields), last)
  {
    assert (fields + [last])[1..] == fields[1..] + [last];
    if |fields| == 1 {
      assert fields[1..] + [last] == [last];
    } else {
      JoinAppend(fields[1..], last);
      GlueAssociates(fields[0], Join(fields[1..]), last);
    }
  }

  function Nuls(text: string): nat { multiset(text)[NUL] }

  lemma NulsOfGlue(left: string, right: string)
    ensures Nuls(Glue(left, right)) == Nuls(left) + 1 + Nuls(right)
  {
    assert multiset(left + [NUL] + right) == multiset(left) + multiset([NUL]) + multiset(right);
  }

  /** The joined parts hold three NULs exactly when none is in a part. */
  lemma CleanIffThreeNuls(x: Intake)
    ensures Nuls(Join(x.Parts())) == 3 <==> x.IsClean()
  {
    JoinOfFour(x);
    NulsOfGlue(x.language, x.externalVerdict);
    NulsOfGlue(x.problem, Glue(x.language, x.externalVerdict));
    NulsOfGlue(x.source, Glue(x.problem, Glue(x.language, x.externalVerdict)));
  }

  /** Submissions without NUL collide with no other, not even with one that has NUL. */
  lemma CleanIsAlone(x: Intake, y: Intake)
    requires Join(x.Parts()) == Join(y.Parts()) && x.IsClean()
    ensures x == y
  {
    CleanIffThreeNuls(x);
    CleanIffThreeNuls(y);
    SplitUndoesJoin(x.Parts());
    SplitUndoesJoin(y.Parts());
    assert x.Parts()[0] == y.Parts()[0] && x.Parts()[1] == y.Parts()[1];
    assert x.Parts()[2] == y.Parts()[2] && x.Parts()[3] == y.Parts()[3];
  }

  lemma CutAtNul(text: string) returns (left: string, right: string)
    requires !Clean(text)
    ensures text == Glue(left, right) && left != text
  {
    var i :| 0 <= i < |text| && text[i] == NUL;
    left, right := text[..i], text[i + 1..];
  }

  /** A NUL can be taken for the separator beside it. */
  lemma Shifted(x: Intake) returns (y: Intake)
    requires !x.IsClean()
    ensures y != x && Join(y.Parts()) == Join(x.Parts())
  {
    var Intake(a, b, c, d) := x;
    if !Clean(a) {
      var p, q := CutAtNul(a);
      y := Intake(p, Glue(q, b), c, d);
      GlueAssociates(p, q, Glue(b, Glue(c, d)));
      GlueAssociates(q, b, Glue(c, d));
    } else if !Clean(b) {
      var p, q := CutAtNul(b);
      y := Intake(a, p, Glue(q, c), d);
      GlueAssociates(p, q, Glue(c, d));
      GlueAssociates(q, c, d);
    } else if !Clean(c) {
      var p, q := CutAtNul(c);
      y := Intake(a, b, p, Glue(q, d));
      GlueAssociates(p, q, d);
    } else {
      var p, q := CutAtNul(d);
      y := Intake(a, b, Glue(c, p), q);
      GlueAssociates(c, p, q);
      assert q != d;
    }
    JoinOfFour(x);
    JoinOfFour(y);
  }

  /** Another submission of the same pipeline version has this one's key exactly when one of its fields holds NUL. */
  lemma CollidesIffNul(hash: string -> string, x: Intake, version: string)
    requires Injective(hash)
    ensures (exists y :: y != x && Key(hash, y, version) == Key(hash, x, version)) <==> !x.IsClean()
  {
    JoinAppend(x.Parts(), version);
    if !x.IsClean() {
      var y := Shifted(x);
      JoinAppend(y.Parts(), version);
      assert Key(hash, y, version) == Key(hash, x, version);
    }
    if y :| y != x && Key(hash, y, version) == Key(hash, x, version) {
      JoinAppend(y.Parts(), version);
      GlueCancels(Join(x.Parts()), Join(y.Parts()), version);
      if x.IsClean() { CleanIsAlone(x, y); }
    }
  }

  lemma GlueCancels(a: string, b: string, c: string)
    requires Glue(a, c) == Glue(b, c)
    ensures a == b
  {
    assert |a| == |b|;
    assert a == Glue(a, c)[..|a|] && b == Glue(b, c)[..|b|];
  }

  /** Fields that contain NUL can shift it across a boundary and collide. */
  lemma NulFieldsCollide(hash: string -> string)
    ensures Key(hash, Intake("a\0b", "c", "cpp", ""), "2") == Key(hash, Intake("a", "b\0c", "cpp", ""), "2")
    ensures Intake("a\0b", "c", "cpp", "") != Intake("a", "b\0c", "cpp", "")
  {
    var p, q := ["a\0b", "c", "cpp", "", "2"], ["a", "b\0c", "cpp", "", "2"];
    var tail := ["cpp", "", "2"];
    assert p[1..] == ["c"] + tail && q[1..] == ["b\0c"] + tail && p[1..][1..] == tail && q[1..][1..] == tail;
    assert Join(p) == "a\0b" + [NUL] + ("c" + [NUL] + Join(tail));
    assert Join(q) == "a" + [NUL] + ("b\0c" + [NUL] + Join(tail));
    assert Join(p) == Join(q);
  }
}

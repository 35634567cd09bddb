/**
 * The plain-text form of the domain models (the model text editor): `modelsToText` writes
 * one block per model, and `textToModels` reads blocks back. The reader is a simplified one:
 * it recovers names and descriptions, and its field filter never accepts a line.
 */
module ModelText {
  import opened Wrappers
  import opened Text
  import opened DomainModel
  import Lists
  import Keywords

  // ----- Writing -----

  /** `  name: type[ required][ primary]`; the primary flag is written when it is truthy. */
  function FieldLine(f: ModelField): string
  {
    "  " + f.name + ": " + f.fieldType + (if f.required then " required" else "")
    + (if f.primaryKey == Some(true) then " primary" else "")
  }

  /** `  type -> target`. */
  function RelationshipLine(r: ModelRelationship): string
  {
    "  " + RelationshipTypeName(r.relType) + " -> " + r.targetModel
  }

  function FieldLines(fs: seq<ModelField>): (r: seq<string>)
    ensures |r| == |fs| && forall i :: 0 <= i < |fs| ==> r[i] == FieldLine(fs[i])
  {
    seq(|fs|, i requires 0 <= i < |fs| => FieldLine(fs[i]))
  }

  function RelationshipLines(rs: seq<ModelRelationship>): (r: seq<string>)
    ensures |r| == |rs| && forall i :: 0 <= i < |rs| ==> r[i] == RelationshipLine(rs[i])
  {
    seq(|rs|, i requires 0 <= i < |rs| => RelationshipLine(rs[i]))
  }

  /** What follows the description line in a block: the field and relationship lists. */
  function BlockTail(m: DomainModel): string
  {
    "\n\nfields:\n" + Join(FieldLines(m.fields), "\n")
    + "\n\nrelationships:\n" + Join(RelationshipLines(m.relationships), "\n") + "\n"
  }

  /** One model's block: a blank first line, `# name`, `description: …`, then the lists. */
  function Block(m: DomainModel): string
  {
    "\n# " + m.name + "\ndescription: " + m.description + BlockTail(m)
  }

  function Blocks(ms: seq<DomainModel>): (r: seq<string>)
    ensures |r| == |ms| && forall i :: 0 <= i < |ms| ==> r[i] == Block(ms[i])
  {
    seq(|ms|, i requires 0 <= i < |ms| => Block(ms[i]))
  }

  /** `modelsToText`: the blocks joined by a `---` line. */
  function ModelsToText(ms: seq<DomainModel>): (r: string)
    ensures ms == [] ==> r == ""
    ensures ms != [] ==> StartsWith(r, Block(ms[0]))
  {
    var bs := Blocks(ms);
    if |bs| >= 2 then
      StartsWithConcat(bs[0], "\n---\n");
      StartsWithExtend(bs[0] + "\n---\n", Join(bs[1..], "\n---\n"), bs[0]);
      Join(bs, "\n---\n")
    else
      Join(bs, "\n---\n")
  }

  // ----- Reading -----

  /** The characters a JavaScript `.` does not match. */
  predicate LineTerminator(c: char)
  {
    c == '\n' || c == '\r' || c == '\U{2028}' || c == '\U{2029}'
  }

  /**
   * `line.match(/^# (.+)$/)`, capture 1: the line is `# ` followed by at least one character,
   * none of them a line terminator.
   */
  function NameMatch(line: string): (r: Option<string>)
    ensures r.Some? <==> |line| >= 3 && line[..2] == "# " && forall k :: 2 <= k < |line| ==> !LineTerminator(line[k])
    ensures r.Some? ==> r.value == line[2..] && r.value != ""
  {
    if |line| >= 3 && line[..2] == "# " && forall k :: 2 <= k < |line| ==> !LineTerminator(line[k])
    then Some(line[2..]) else None
  }

  const DescriptionKey := "description:"

  predicate IsDescriptionLine(l: string)
  {
    StartsWith(l, DescriptionKey)
  }

  /** The first `description:` line with that prefix removed and the rest trimmed, or `''`. */
  function DescriptionOf(lines: seq<string>): string
  {
    match Lists.Find(lines, IsDescriptionLine)
    case Some(l) => Trim(ReplaceFirst(l, DescriptionKey, ""))
    case None => ""
  }

  /** `arr.slice(from, to)` with `to` omitted when None; a range that ends before it starts is empty. */
  function Slice<T>(s: seq<T>, from: nat, to: Option<nat>): (r: seq<T>)
  {
    var hi := match to case Some(t) => if t < |s| then t else |s| case None => |s|;
    if from < hi then s[from..hi] else []
  }

  /** The filter on field lines: the TRIMMED line must start with two spaces. */
  predicate IsFieldLine(l: string)
  {
    StartsWith(Trim(l), "  ")
  }

  /** The lines between `fields:` and `relationships:` that pass the field-line filter. */
  function FieldLinesOf(lines: seq<string>): seq<string>
  {
    match Lists.FindIndex(lines, (l: string) => Trim(l) == "fields:")
    case None => []
    case Some(start) =>
      var end := Lists.FindIndex(lines, (l: string) => Trim(l) == "relationships:");
      Lists.Filter(Slice(lines, start + 1, end), IsFieldLine)
  }

  /**
   * How one field line would be read: the text before the first `:` (trimmed) is the name,
   * the rest (trimmed) split on single spaces gives the type and then the modifiers.
   */
  function ParseField(line: string, fIndex: nat, modelName: string): (f: ModelField)
  {
    var parts := Split(Trim(line), ":");
    var typeText := Trim(Join(parts[1..], ":"));
    var words := Split(typeText, " ");
    ModelField(modelName + "_field_" + NatToString(fIndex), Trim(parts[0]), words[0],
               "required" in words[1..], Some("primary" in words[1..]), None, None)
  }

  function ParseFields(lines: seq<string>, modelName: string): seq<ModelField>
  {
    var fl := FieldLinesOf(lines);
    seq(|fl|, i requires 0 <= i < |fl| => ParseField(fl[i], i, modelName))
  }

  /** One section read as a model: id `model_{index}`, name from the first line or `Entity{index+1}`. */
  function SectionToModel(section: string, index: nat): DomainModel
  {
    var lines := Lines(Trim(section));
    var name := match NameMatch(lines[0]) case Some(n) => n case None => "Entity" + NatToString(index + 1);
    DomainModel("model_" + NatToString(index), name, DescriptionOf(lines), ParseFields(lines, name), [], [], None)
  }

  /** The sections: the text split at every `---`, blank pieces dropped. */
  function Sections(text: string): seq<string>
  {
    Lists.Filter(Split(text, "---"), HasText)
  }

  /** `textToModels`. */
  function TextToModels(text: string): (r: seq<DomainModel>)
    ensures |r| == |Sections(text)|
    ensures forall i :: 0 <= i < |r| ==> r[i] == SectionToModel(Sections(text)[i], i)
  {
    var sections := Sections(text);
    seq(|sections|, i requires 0 <= i < |sections| => SectionToModel(sections[i], i))
  }

  // ----- Properties of the reader -----

  /** A trimmed line never starts with whitespace, so the field-line filter rejects every line. */
  lemma TrimmedNeverStartsWithSpaces(l: string)
    ensures !IsFieldLine(l)
  {
    var t := Trim(l);
    var left := TrimLeft(Js, l);
    if |t| >= 2 {
      assert t[0] == left[0];
    }
  }

  /** The field-line filter leaves nothing, whatever the lines. */
  lemma {:induction false} NoFieldLines(lines: seq<string>)
    ensures FieldLinesOf(lines) == []
  {
    match Lists.FindIndex(lines, (l: string) => Trim(l) == "fields:")
    case None =>
    case Some(start) =>
      var end := Lists.FindIndex(lines, (l: string) => Trim(l) == "relationships:");
      var candidates := Slice(lines, start + 1, end);
      forall l | l in candidates ensures !IsFieldLine(l) {
        TrimmedNeverStartsWithSpaces(l);
      }
      Lists.FilterNone(candidates, IsFieldLine);
  }

  /** Hence every model read from text has no fields, no relationships and no business rules. */
  lemma {:induction false} ReadModelsHaveNoFields(text: string)
    ensures forall m :: m in TextToModels(text) ==> m.fields == [] && m.relationships == [] && m.businessRules == []
  {
    var ms := TextToModels(text);
    forall i | 0 <= i < |ms| ensures ms[i].fields == [] {
      NoFieldLines(Lines(Trim(Sections(text)[i])));
    }
  }

  /** Ids and fallback names follow the section's position among the non-blank sections. */
  lemma ReadModelIds(text: string, i: nat)
    requires i < |TextToModels(text)|
    ensures TextToModels(text)[i].id == "model_" + NatToString(i)
    ensures NameMatch(Lines(Trim(Sections(text)[i]))[0]).None? ==>
              TextToModels(text)[i].name == "Entity" + NatToString(i + 1)
  {
  }

  // ----- Writing then reading -----

  /** No run of three dashes: the reader would cut the text there. */
  predicate NoRun(s: string)
  {
    !Contains(s, "---")
  }

  /** Text without a dash has no run of dashes. */
  lemma NoDashNoRun(s: string)
    requires '-' !in s
    ensures NoRun(s)
  {
    forall i | 0 <= i < |s| ensures s[i] != "---"[0] {
    }
    Keywords.MissingCharNotContained(s, "---", 0);
  }

  /** Two texts without a run keep none when glued, unless both sides of the seam are dashes. */
  lemma NoRunConcat(x: string, y: string)
    requires NoRun(x) && NoRun(y)
    requires x == [] || y == [] || x[|x| - 1] != '-' || y[0] != '-'
    ensures NoRun(x + y)
  {
    var s := x + y;
    forall i | 0 <= i <= |s| - 3 ensures !MatchAt(s, "---", i) {
      if i + 3 <= |x| {
        assert s[i..i + 3] == x[i..i + 3];
        assert !MatchAt(x, "---", i);
      } else if i >= |x| {
        assert s[i..i + 3] == y[i - |x|..i - |x| + 3];
        assert !MatchAt(y, "---", i - |x|);
      } else {
        assert s[|x| - 1] == x[|x| - 1] && s[|x|] == y[0];
        assert s[i..i + 3][|x| - 1 - i] == s[|x| - 1] && s[i..i + 3][|x| - i] == s[|x|];
      }
    }
  }

  /** Pieces without a run, joined by a dash-free separator, have none. */
  lemma {:induction false} JoinNoRun(ls: seq<string>, sep: string)
    requires sep != [] && '-' !in sep
    requires forall i :: 0 <= i < |ls| ==> NoRun(ls[i])
    ensures NoRun(Join(ls, sep))
    decreases |ls|
  {
    if |ls| == 0 {
      NoDashNoRun("");
    } else if |ls| > 1 {
      JoinNoRun(ls[1..], sep);
      NoDashNoRun(sep);
      NoRunConcat(ls[0], sep);
      NoRunConcat(ls[0] + sep, Join(ls[1..], sep));
    }
  }

  /** `a-b` has no run when `a` has no dash and `b` has no run and does not start with a dash. */
  lemma DashJoin(a: string, b: string)
    requires '-' !in a && NoRun(b) && (b == [] || b[0] != '-')
    ensures NoRun(a + "-" + b)
  {
    NoDashNoRun(a);
    assert NoRun("-");
    NoRunConcat(a, "-");
    NoRunConcat(a + "-", b);
  }

  /** The relationship type names (`one-to-many`, …) have single dashes only. */
  lemma TypeNameNoRun(t: RelationshipType)
    ensures NoRun(RelationshipTypeName(t))
  {
    NoDashNoRun("one");
    NoDashNoRun("many");
    DashJoin("to", "one");
    DashJoin("to", "many");
    var one := "to" + "-" + "one";
    var many := "to" + "-" + "many";
    match t
    case OneToOne =>
      DashJoin("one", one);
      assert RelationshipTypeName(t) == "one" + "-" + one;
    case OneToMany =>
      DashJoin("one", many);
      assert RelationshipTypeName(t) == "one" + "-" + many;
    case ManyToOne =>
      DashJoin("many", one);
      assert RelationshipTypeName(t) == "many" + "-" + one;
    case ManyToMany =>
      DashJoin("many", many);
      assert RelationshipTypeName(t) == "many" + "-" + many;
  }

  /** The texts a model writes never hold a run of three dashes. */
  predicate NoRunFields(m: DomainModel)
  {
    (forall i :: 0 <= i < |m.fields| ==> NoRun(m.fields[i].name) && NoRun(m.fields[i].fieldType))
    && (forall i :: 0 <= i < |m.relationships| ==> NoRun(m.relationships[i].targetModel))
  }

  lemma FieldLineNoRun(f: ModelField)
    requires NoRun(f.name) && NoRun(f.fieldType)
    ensures NoRun(FieldLine(f))
  {
    NoDashNoRun("  ");
    NoDashNoRun(": ");
    NoDashNoRun(" required");
    NoDashNoRun(" primary");
    NoDashNoRun("");
    NoRunConcat("  ", f.name);
    NoRunConcat("  " + f.name, ": ");
    NoRunConcat("  " + f.name + ": ", f.fieldType);
    var req := if f.required then " required" else "";
    var pk := if f.primaryKey == Some(true) then " primary" else "";
    NoRunConcat("  " + f.name + ": " + f.fieldType, req);
    NoRunConcat("  " + f.name + ": " + f.fieldType + req, pk);
  }

  lemma RelationshipLineNoRun(r: ModelRelationship)
    requires NoRun(r.targetModel)
    ensures NoRun(RelationshipLine(r))
  {
    var name := RelationshipTypeName(r.relType);
    TypeNameNoRun(r.relType);
    NoDashNoRun("  ");
    NoRunConcat("  ", name);
    assert " -> " == " " + "-" + "> ";
    DashJoin(" ", "> ") by {
      NoDashNoRun("> ");
    }
    NoRunConcat("  " + name, " -> ");
    NoRunConcat("  " + name + " -> ", r.targetModel);
  }

  /** A block has no run of dashes when none of its model's texts has one. */
  lemma BlockNoRun(m: DomainModel)
    requires NoRun(m.name) && NoRun(m.description) && NoRunFields(m)
    ensures NoRun(Block(m))
  {
    var fl := FieldLines(m.fields);
    var rl := RelationshipLines(m.relationships);
    forall i | 0 <= i < |fl| ensures NoRun(fl[i]) {
      FieldLineNoRun(m.fields[i]);
    }
    forall i | 0 <= i < |rl| ensures NoRun(rl[i]) {
      RelationshipLineNoRun(m.relationships[i]);
    }
    NoDashNoRun("\n");
    JoinNoRun(fl, "\n");
    JoinNoRun(rl, "\n");
    var f := Join(fl, "\n");
    var r := Join(rl, "\n");
    NoDashNoRun("\n\nfields:\n");
    NoDashNoRun("\n\nrelationships:\n");
    NoDashNoRun("\n# ");
    NoDashNoRun("\ndescription: ");
    NoRunConcat("\n\nfields:\n", f);
    NoRunConcat("\n\nfields:\n" + f, "\n\nrelationships:\n");
    NoRunConcat("\n\nfields:\n" + f + "\n\nrelationships:\n", r);
    NoRunConcat("\n\nfields:\n" + f + "\n\nrelationships:\n" + r, "\n");
    NoRunConcat("\n# ", m.name);
    NoRunConcat("\n# " + m.name, "\ndescription: ");
    NoRunConcat("\n# " + m.name + "\ndescription: ", m.description);
    NoRunConcat("\n# " + m.name + "\ndescription: " + m.description, BlockTail(m));
  }

  /** The pieces `split('---')` makes of `lead` followed by blocks joined by `\n---\n`: every seam's newlines stay with the pieces. */
  function Pieces(bs: seq<string>, lead: string): (r: seq<string>)
    ensures |r| == |bs|
  {
    seq(|bs|, i requires 0 <= i < |bs| => (if i == 0 then lead else "\n") + bs[i] + (if i + 1 < |bs| then "\n" else ""))
  }

  /** A block is framed by newlines and holds no run of dashes. */
  predicate Framed(b: string)
  {
    |b| > 0 && b[0] == '\n' && b[|b| - 1] == '\n' && NoRun(b)
  }

  /** Splitting joined blocks at `---` cuts exactly at the separators. */
  lemma {:induction false} SplitJoined(bs: seq<string>, lead: string)
    requires |bs| >= 1 && (lead == "" || lead == "\n")
    requires forall i :: 0 <= i < |bs| ==> Framed(bs[i])
    ensures Split(lead + Join(bs, "\n---\n"), "---") == Pieces(bs, lead)
    decreases |bs|, 1
  {
    var b := bs[0];
    assert Framed(b);
    assert NoRun(lead + b) by {
      NoDashNoRun(lead);
      NoRunConcat(lead, b);
    }
    if |bs| == 1 {
      assert lead + Join(bs, "\n---\n") == lead + b;
      SplitNone(lead + b, "---");
      assert Pieces(bs, lead) == [lead + b] by {
        assert lead + b + "" == lead + b;
      }
    } else {
      SplitJoinedMore(bs, lead);
    }
  }

  /** SplitJoined for two blocks or more: the first cut, then the rest. */
  lemma {:induction false} SplitJoinedMore(bs: seq<string>, lead: string)
    requires |bs| >= 2 && (lead == "" || lead == "\n")
    requires forall i :: 0 <= i < |bs| ==> Framed(bs[i])
    requires NoRun(lead + bs[0])
    ensures Split(lead + Join(bs, "\n---\n"), "---") == Pieces(bs, lead)
    decreases |bs|, 0
  {
    var b := bs[0];
    var x := lead + b + "\n";
    var z := "\n" + Join(bs[1..], "\n---\n");
    FirstPieceHasNoCut(lead + b);
    JoinedSeam(lead, bs);
    SplitAtFirst(x, "---", z);
    SplitJoined(bs[1..], "\n");
    PiecesFirst(bs, lead);
  }

  /** The first piece, a text without dash runs followed by a newline, holds no `---`, even with two more dashes. */
  lemma FirstPieceHasNoCut(y: string)
    requires NoRun(y)
    ensures !Contains(y + "\n" + "---"[..2], "---")
  {
    NoDashNoRun("\n");
    NoRunConcat(y, "\n");
    assert NoRun("--");
    NoRunConcat(y + "\n", "--");
    assert "---"[..2] == "--";
  }

  /** Blocks joined by `\n---\n` after a lead: the first block and its newline, `---`, then the rest. */
  lemma JoinedSeam(lead: string, bs: seq<string>)
    requires |bs| >= 2
    ensures lead + Join(bs, "\n---\n") == (lead + bs[0] + "\n") + "---" + ("\n" + Join(bs[1..], "\n---\n"))
  {
    var rest := Join(bs[1..], "\n---\n");
    assert Join(bs, "\n---\n") == bs[0] + "\n---\n" + rest;
    assert "\n---\n" == "\n" + "---" + "\n";
    SeamRegroup(lead, bs[0], rest, "\n", "---");
  }

  lemma SeamRegroup(lead: string, b: string, rest: string, n: string, d: string)
    ensures lead + (b + (n + d + n) + rest) == (lead + b + n) + d + (n + rest)
  {
  }

  /** The pieces of two blocks or more: the first, then those of the rest behind a newline. */
  lemma PiecesFirst(bs: seq<string>, lead: string)
    requires |bs| >= 2
    ensures Pieces(bs, lead) == [lead + bs[0] + "\n"] + Pieces(bs[1..], "\n")
  {
  }

  /** The heading and description lines of a block, each ended by a newline. */
  function BlockHead(m: DomainModel): string
  {
    ("# " + m.name) + "\n" + ("description: " + m.description) + "\n"
  }

  /** A block is a newline, its heading and description lines, and its tail after that tail's leading newline. */
  lemma BlockShape(m: DomainModel)
    ensures Block(m) == "\n" + BlockHead(m) + BlockTail(m)[1..]
    ensures |BlockTail(m)| > 2 && BlockTail(m)[0] == '\n' && BlockTail(m)[2] == 'f'
    ensures BlockTail(m)[|BlockTail(m)| - 1] == '\n'
  {
    var t := BlockTail(m);
    assert t == "\n" + t[1..];
  }

  /** Every block `modelsToText` writes is framed by newlines, and has no run when the model's texts have none. */
  lemma BlockFramed(m: DomainModel)
    requires NoRun(m.name) && NoRun(m.description) && NoRunFields(m)
    ensures Framed(Block(m))
  {
    BlockNoRun(m);
    BlockShape(m);
    var b := Block(m);
    assert b[|b| - 1] == BlockTail(m)[|BlockTail(m)| - 1];
  }

  /** The models `modelsToText` can write so that `textToModels` reads back their names and descriptions. */
  predicate Readable(m: DomainModel)
  {
    NoRun(m.name) && NoRun(m.description) && NoRunFields(m)
    && m.name != [] && (forall k :: 0 <= k < |m.name| ==> !LineTerminator(m.name[k]))
    && '\n' !in m.description
  }

  /** Trimming a piece of written text drops the framing newlines before the heading, and keeps the heading and everything up to the last non-space of the tail. */
  lemma TrimPiece(pre: string, head: string, t: string, post: string)
    requires pre == "" || pre == "\n"
    requires |head| > 0 && head[0] == '#' && |t| > 1 && t[1] == 'f'
    ensures Trim(pre + ("\n" + head + t) + post) == head + TrimRight(Js, t + post)
  {
    var rest := t + post;
    var body := head + rest;
    assert TrimLeft(Js, pre + ("\n" + head + t) + post) == body by {
      var ws := pre + "\n";
      assert Blank(Js, ws);
      assert pre + ("\n" + head + t) + post == ws + body;
      TrimLeftSkip(ws, body);
      assert body[0] == '#';
    }
    assert TrimRight(Js, body) == head + TrimRight(Js, rest) by {
      assert rest[1] == t[1];
      TrimRightKeep(head, rest, 1);
    }
  }

  /** A trimmed piece of written text starts with the model's heading and description lines. */
  lemma TrimBlock(pre: string, m: DomainModel, post: string)
    requires (pre == "" || pre == "\n") && (post == "" || post == "\n")
    ensures Trim(pre + Block(m) + post)
            == ("# " + m.name) + "\n" + ("description: " + m.description) + "\n" + TrimRight(Js, BlockTail(m)[1..] + post)
  {
    var t := BlockTail(m)[1..];
    BlockShape(m);
    assert pre + Block(m) + post == pre + ("\n" + BlockHead(m) + t) + post;
    TrimPiece(pre, BlockHead(m), t, post);
  }

  /** Two texts without a newline make one without a newline. */
  lemma OneLine(a: string, b: string)
    requires '\n' !in a && '\n' !in b
    ensures '\n' !in a + b
  {
  }

  /** The first two lines of a text that starts with two newline-free lines. */
  lemma TwoLines(l0: string, l1: string, y: string)
    requires '\n' !in l0 && '\n' !in l1
    ensures var ls := Lines(l0 + "\n" + l1 + "\n" + y);
            |ls| >= 2 && ls == [l0, l1] + ls[2..]
  {
    assert l0 + "\n" + l1 + "\n" + y == l0 + "\n" + (l1 + "\n" + y);
    LinesCons(l0, l1 + "\n" + y);
    LinesCons(l1, y);
    var ls := Lines(l0 + "\n" + l1 + "\n" + y);
    assert ls == [ls[0], ls[1]] + ls[2..];
  }

  /** A heading line of a name without line terminators reads back as that name. */
  lemma HeadingLine(name: string)
    requires name != [] && forall k :: 0 <= k < |name| ==> !LineTerminator(name[k])
    ensures '\n' !in "# " + name && NameMatch("# " + name) == Some(name)
  {
    assert '\n' !in name by {
      forall k | 0 <= k < |name| ensures name[k] != '\n' {
        assert !LineTerminator(name[k]);
      }
    }
    OneLine("# ", name);
    assert ("# " + name)[2..] == name;
  }

  /** The description line gives back the description, trimmed. */
  lemma ReadDescription(l0: string, desc: string, rest: seq<string>)
    requires |l0| > 0 && l0[0] == '#'
    ensures DescriptionOf([l0, "description: " + desc] + rest) == Trim(desc)
  {
    var l1 := "description: " + desc;
    var lines := [l0, l1] + rest;
    assert !IsDescriptionLine(l0);
    assert IsDescriptionLine(l1) by {
      assert l1[..|DescriptionKey|] == DescriptionKey;
    }
    assert Lists.FindIndex(lines, IsDescriptionLine) == Some(1) by {
      assert lines[1..] == [l1] + rest;
    }
    assert MatchAt(l1, DescriptionKey, 0) by {
      assert l1[..|DescriptionKey|] == DescriptionKey;
    }
    assert IndexOf(l1, DescriptionKey) == Some(0);
    assert ReplaceFirst(l1, DescriptionKey, "") == " " + desc;
    assert Blank(Js, " ");
    TrimLeftSkip(" ", desc);
  }

  /** A section whose trimmed text starts with a heading line and a description line is read as that name and description. */
  lemma ReadSection(section: string, name: string, desc: string, y: string, index: nat)
    requires Trim(section) == ("# " + name) + "\n" + ("description: " + desc) + "\n" + y
    requires name != [] && forall k :: 0 <= k < |name| ==> !LineTerminator(name[k])
    requires '\n' !in desc
    ensures SectionToModel(section, index).name == name
    ensures SectionToModel(section, index).description == Trim(desc)
  {
    var l0 := "# " + name;
    var l1 := "description: " + desc;
    HeadingLine(name);
    OneLine("description: ", desc);
    TwoLines(l0, l1, y);
    ReadDescription(l0, desc, Lines(Trim(section))[2..]);
    SectionParts(section, index);
  }

  /** A section's model takes its name from the first line's heading and its description from the lines. */
  lemma SectionParts(section: string, index: nat)
    ensures var lines := Lines(Trim(section));
            NameMatch(lines[0]).Some? ==> SectionToModel(section, index).name == NameMatch(lines[0]).value
    ensures SectionToModel(section, index).description == DescriptionOf(Lines(Trim(section)))
  {
  }

  /** Reading one piece of written text gives back the model's name and its trimmed description. */
  lemma ReadPiece(pre: string, m: DomainModel, post: string, index: nat)
    requires (pre == "" || pre == "\n") && (post == "" || post == "\n")
    requires Readable(m)
    ensures SectionToModel(pre + Block(m) + post, index).name == m.name
    ensures SectionToModel(pre + Block(m) + post, index).description == Trim(m.description)
  {
    TrimBlock(pre, m, post);
    ReadSection(pre + Block(m) + post, m.name, m.description, TrimRight(Js, BlockTail(m)[1..] + post), index);
  }

  /** The piece of written text that holds the `i`-th block. */
  lemma PieceAt(ms: seq<DomainModel>, i: nat)
    requires i < |ms|
    ensures Pieces(Blocks(ms), "")[i]
            == (if i == 0 then "" else "\n") + Block(ms[i]) + (if i + 1 < |ms| then "\n" else "")
  {
  }

  /** A piece of written text holds the heading's `#`, so it is not blank. */
  lemma PieceHasText(pre: string, m: DomainModel, post: string)
    requires pre == "" || pre == "\n"
    ensures HasText(pre + Block(m) + post)
  {
    var x := pre + Block(m) + post;
    assert x[|pre| + 1] == Block(m)[1] == '#';
    HasTextIffNotBlank(x);
  }

  /** The sections of written text are exactly its pieces: every piece holds a heading, so none is blank. */
  lemma {:induction false} SectionsOfText(ms: seq<DomainModel>)
    requires |ms| >= 1 && forall i :: 0 <= i < |ms| ==> Readable(ms[i])
    ensures Sections(ModelsToText(ms)) == Pieces(Blocks(ms), "")
  {
    var bs := Blocks(ms);
    forall i | 0 <= i < |bs| ensures Framed(bs[i]) {
      BlockFramed(ms[i]);
    }
    SplitJoined(bs, "");
    var text := ModelsToText(ms);
    assert "" + text == text;
    var pieces := Pieces(bs, "");
    forall i | 0 <= i < |pieces| ensures HasText(pieces[i]) {
      PieceAt(ms, i);
      PieceHasText(if i == 0 then "" else "\n", ms[i], if i + 1 < |ms| then "\n" else "");
    }
    Lists.FilterAll(pieces, HasText);
  }

  /**
   * Writing models and reading them back keeps their number and order, their names and their
   * trimmed descriptions, as long as no text holds a `---` run and the names and descriptions
   * stay on one line. Ids are renumbered and the fields and relationships are lost.
   */
  lemma {:induction false} RoundTrip(ms: seq<DomainModel>)
    requires |ms| >= 1 && forall i :: 0 <= i < |ms| ==> Readable(ms[i])
    ensures |TextToModels(ModelsToText(ms))| == |ms|
    ensures forall i :: 0 <= i < |ms| ==>
              TextToModels(ModelsToText(ms))[i].name == ms[i].name
              && TextToModels(ModelsToText(ms))[i].description == Trim(ms[i].description)
              && TextToModels(ModelsToText(ms))[i].id == "model_" + NatToString(i)
              && TextToModels(ModelsToText(ms))[i].fields == []
  {
    var text := ModelsToText(ms);
    var read := TextToModels(text);
    SectionsOfText(ms);
    ReadModelsHaveNoFields(text);
    forall i | 0 <= i < |ms|
      ensures read[i].name == ms[i].name && read[i].description == Trim(ms[i].description)
      ensures read[i].fields == []
    {
      PieceAt(ms, i);
      ReadPiece(if i == 0 then "" else "\n", ms[i], if i + 1 < |ms| then "\n" else "", i);
      assert read[i] in read;
    }
  }

  /** No models are written as the empty text, which reads back as no models. */
  lemma RoundTripEmpty()
    ensures TextToModels(ModelsToText([])) == []
  {
    assert Split("", "---") == [""];
    assert !HasText("");
  }
}

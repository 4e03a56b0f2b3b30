/**
 * Canonical (multi-line) and compact (single-line) renderings of a Startosis
 * instruction, as the `wait` instruction produces them.
 */
module InstructionRender {
  import opened Strings

  /** Where in a script an instruction was called. */
  datatype InstructionPosition = InstructionPosition(line: int, column: int, filename: string)

  /** A string-valued argument of an instruction, rendered as `name="value"`. */
  datatype RenderedArg = RenderedArg(name: string, value: string)

  function Quote(v: string): string { "\"" + v + "\"" }

  function ArgText(a: RenderedArg): string { a.name + "=" + Quote(a.value) }

  function ArgTexts(args: seq<RenderedArg>): (r: seq<string>)
    ensures |r| == |args|
    ensures forall k :: 0 <= k < |args| ==> r[k] == ArgText(args[k])
  {
    seq(|args|, k requires 0 <= k < |args| => ArgText(args[k]))
  }

  function Indent(lines: seq<string>): (r: seq<string>)
    ensures |r| == |lines|
    ensures forall k :: 0 <= k < |lines| ==> r[k] == "\t" + lines[k]
  {
    seq(|lines|, k requires 0 <= k < |lines| => "\t" + lines[k])
  }

  /** The comment line that opens a canonical instruction: `# from: <file>[<line>:<col>]`. */
  function Header(p: InstructionPosition): string
  {
    "# from: " + p.filename + "[" + IntToString(p.line) + ":" + IntToString(p.column) + "]"
  }

  /** Multi-line form: header, `name(`, one tab-indented argument per line separated by commas, `)`. */
  function Canonical(name: string, p: InstructionPosition, args: seq<RenderedArg>): string
  {
    Header(p) + "\n" + name + "(\n" + Join(Indent(ArgTexts(args)), ",\n") + "\n)"
  }

  /** Single-line form: `name(a="x", b="y")`. */
  function SingleLine(name: string, args: seq<RenderedArg>): string
  {
    name + "(" + Join(ArgTexts(args), ", ") + ")"
  }

  /** The `wait` instruction: waits for a fact of a service. */
  datatype WaitInstruction = WaitInstruction(position: InstructionPosition, serviceId: string, factName: string)

  /** The constructor takes the service id first; the rendering lists arguments by name. */
  function NewWaitInstruction(position: InstructionPosition, serviceId: string, factName: string): (w: WaitInstruction)
    ensures w.position == position && w.serviceId == serviceId && w.factName == factName
  {
    WaitInstruction(position, serviceId, factName)
  }

  function WaitArgs(w: WaitInstruction): seq<RenderedArg>
  {
    [RenderedArg("fact_name", w.factName), RenderedArg("service_id", w.serviceId)]
  }

  /** The header line, then `wait(` with one tab-indented argument per line, in name order. */
  function GetCanonicalInstruction(w: WaitInstruction): (r: string)
    ensures r == Header(w.position) + "\nwait(\n\tfact_name=\"" + w.factName + "\",\n\tservice_id=\"" + w.serviceId + "\"\n)"
  {
    WaitForms(w);
    Canonical("wait", w.position, WaitArgs(w))
  }

  /** `wait(` and both arguments on one line, in name order. */
  function WaitString(w: WaitInstruction): (r: string)
    ensures r == "wait(fact_name=\"" + w.factName + "\", service_id=\"" + w.serviceId + "\")"
  {
    WaitForms(w);
    SingleLine("wait", WaitArgs(w))
  }

  // ---------------------------------------------------------------------------
  // Properties
  // ---------------------------------------------------------------------------

  predicate SortedByName(args: seq<RenderedArg>)
  {
    forall i, j :: 0 <= i < j < |args| ==> Less(args[i].name, args[j].name)
  }

  /** The wait instruction renders its arguments in name order (`fact_name` before `service_id`). */
  lemma WaitArgsSortedByName(w: WaitInstruction)
    ensures SortedByName(WaitArgs(w))
    ensures WaitArgs(w)[0].name == "fact_name" && WaitArgs(w)[1].name == "service_id"
  {
    var a := WaitArgs(w);
    assert "fact_name"[0] == 'f' && "service_id"[0] == 's';
    assert Less(a[0].name, a[1].name);
  }

  /** The two forms of the wait instruction's arguments, written out. */
  lemma WaitForms(w: WaitInstruction)
    ensures Canonical("wait", w.position, WaitArgs(w)) ==
      Header(w.position) + "\nwait(\n\tfact_name=\"" + w.factName + "\",\n\tservice_id=\"" + w.serviceId + "\"\n)"
    ensures SingleLine("wait", WaitArgs(w)) == "wait(fact_name=\"" + w.factName + "\", service_id=\"" + w.serviceId + "\")"
  {
    var fa, va := RenderedArg("fact_name", w.factName), RenderedArg("service_id", w.serviceId);
    TwoArgForms("wait", w.position, fa, va);
    assert ArgText(fa) == "fact_name=\"" + w.factName + "\"";
    assert ArgText(va) == "service_id=\"" + w.serviceId + "\"";
    WaitRegroupMultiLine(Header(w.position), w.factName, w.serviceId);
    WaitRegroupSingleLine(w.factName, w.serviceId);
  }

  lemma WaitRegroupMultiLine(h: string, f: string, s: string)
    ensures h + "\n" + "wait" + "(\n\t" + ("fact_name=\"" + f + "\"") + ",\n\t" + ("service_id=\"" + s + "\"") + "\n)"
         == h + "\nwait(\n\tfact_name=\"" + f + "\",\n\tservice_id=\"" + s + "\"\n)"
  {
    Regroup(h, "\n" + "wait" + "(\n\t" + "fact_name=\"", f, "\"" + ",\n\t" + "service_id=\"", s, "\"" + "\n)");
    assert "\n" + "wait" + "(\n\t" + "fact_name=\"" == "\nwait(\n\tfact_name=\"";
    assert "\"" + ",\n\t" + "service_id=\"" == "\",\n\tservice_id=\"";
    assert "\"" + "\n)" == "\"\n)";
  }

  lemma WaitRegroupSingleLine(f: string, s: string)
    ensures "wait" + "(" + ("fact_name=\"" + f + "\"") + ", " + ("service_id=\"" + s + "\"") + ")"
         == "wait(fact_name=\"" + f + "\", service_id=\"" + s + "\")"
  {
    Regroup("", "wait" + "(" + "fact_name=\"", f, "\"" + ", " + "service_id=\"", s, "\"" + ")");
    assert "wait" + "(" + "fact_name=\"" == "wait(fact_name=\"";
    assert "\"" + ", " + "service_id=\"" == "\", service_id=\"";
    assert "\"" + ")" == "\")";
  }

  /** Concatenation regrouped around two variable parts. */
  lemma Regroup(h: string, a: string, f: string, b: string, s: string, c: string)
    ensures h + a + f + b + s + c == h + (a + f + b + s + c)
  {
  }

  /** Both forms of an instruction with two arguments. */
  lemma TwoArgForms(name: string, p: InstructionPosition, a: RenderedArg, b: RenderedArg)
    ensures Canonical(name, p, [a, b]) == Header(p) + "\n" + name + "(\n\t" + ArgText(a) + ",\n\t" + ArgText(b) + "\n)"
    ensures SingleLine(name, [a, b]) == name + "(" + ArgText(a) + ", " + ArgText(b) + ")"
  {
    var texts := ArgTexts([a, b]);
    assert texts == [ArgText(a), ArgText(b)];
    assert Indent(texts) == ["\t" + ArgText(a), "\t" + ArgText(b)];
    JoinPair("\t" + ArgText(a), "\t" + ArgText(b), ",\n");
    JoinPair(ArgText(a), ArgText(b), ", ");
  }

  lemma JoinPair(a: string, b: string, sep: string)
    ensures Join([a, b], sep) == a + sep + b
  {
    assert [a, b][1..] == [b];
  }

  /** Indenting every argument equals indenting the first and joining the rest with a tab after each separator. */
  lemma {:induction false} JoinIndented(parts: seq<string>)
    requires |parts| > 0
    ensures Join(Indent(parts), ",\n") == "\t" + Join(parts, ",\n\t")
    decreases |parts|
  {
    if |parts| > 1 {
      JoinIndented(parts[1..]);
      assert Indent(parts)[1..] == Indent(parts[1..]);
    }
  }

  /**
   * The two forms list the same argument texts in the same order; they differ only
   * in the header, the separators and the tab before each argument.
   */
  lemma FormsAgree(name: string, p: InstructionPosition, args: seq<RenderedArg>)
    requires |args| > 0
    ensures Canonical(name, p, args) == Header(p) + "\n" + name + "(\n\t" + Join(ArgTexts(args), ",\n\t") + "\n)"
    ensures SingleLine(name, args) == name + "(" + Join(ArgTexts(args), ", ") + ")"
  {
    JoinIndented(ArgTexts(args));
  }

  /** The rendering pinned by the unit test of the wait instruction. */
  lemma WaitTestRendering(serviceId: string, factName: string)
    ensures GetCanonicalInstruction(NewWaitInstruction(InstructionPosition(1, 1, "dummyFile"), serviceId, factName))
      == "# from: dummyFile[1:1]" + "\nwait(\n\tfact_name=\"" + factName + "\",\n\tservice_id=\"" + serviceId + "\"\n)"
    ensures WaitString(NewWaitInstruction(InstructionPosition(1, 1, "dummyFile"), serviceId, factName))
      == "wait(fact_name=\"" + factName + "\", service_id=\"" + serviceId + "\")"
  {
    var w := NewWaitInstruction(InstructionPosition(1, 1, "dummyFile"), serviceId, factName);
    assert IntToString(1) == "1";
    assert Header(w.position) == "# from: " + "dummyFile" + "[" + "1" + ":" + "1" + "]" == "# from: dummyFile[1:1]";
  }

  // ---------------------------------------------------------------------------
  // The header identifies the position it was rendered from
  // ---------------------------------------------------------------------------

  /** In `x + [c] + y` with no `c` in `x`, the first `c` is at index `|x|`. */
  lemma FirstOccurrence(x: string, y: string, c: char)
    requires c !in x
    ensures (x + [c] + y)[|x|] == c
    ensures forall k :: 0 <= k < |x| ==> (x + [c] + y)[k] != c
  {
    forall k | 0 <= k < |x| ensures (x + [c] + y)[k] != c {
      assert (x + [c] + y)[k] == x[k];
    }
  }

  lemma SplitAtFirst(x1: string, y1: string, x2: string, y2: string, c: char)
    requires x1 + [c] + y1 == x2 + [c] + y2
    requires c !in x1 && c !in x2
    ensures x1 == x2 && y1 == y2
  {
    var s := x1 + [c] + y1;
    FirstOccurrence(x1, y1, c);
    FirstOccurrence(x2, y2, c);
    assert |x1| == |x2|;
    assert x1 == s[..|x1|] == x2;
    assert y1 == s[|x1| + 1..] == y2;
  }

  lemma IntToStringNoPunctuation(i: int)
    ensures ':' !in IntToString(i) && ']' !in IntToString(i) && '[' !in IntToString(i)
  {
    NatToStringDigits(if i < 0 then -i else i);
  }

  lemma IntToStringSign(i: int)
    ensures |IntToString(i)| > 0
    ensures IntToString(i)[0] == '-' <==> i < 0
  {
    NatToStringDigits(if i < 0 then -i else i);
  }

  lemma IntToStringInjective(i: int, j: int)
    requires IntToString(i) == IntToString(j)
    ensures i == j
  {
    IntToStringSign(i);
    IntToStringSign(j);
    if i < 0 && j < 0 {
      assert NatToString(-i) == IntToString(i)[1..] == IntToString(j)[1..] == NatToString(-j);
      NatToStringInjective(-i, -j);
    } else if i >= 0 && j >= 0 {
      NatToStringInjective(i, j);
    }
  }

  /** Two instructions with the same header were called at the same position (file names hold no '['). */
  lemma HeaderIdentifiesPosition(p: InstructionPosition, q: InstructionPosition)
    requires '[' !in p.filename && '[' !in q.filename
    requires Header(p) == Header(q)
    ensures p == q
  {
    var lp, cp := IntToString(p.line), IntToString(p.column);
    var lq, cq := IntToString(q.line), IntToString(q.column);
    IntToStringNoPunctuation(p.line);
    IntToStringNoPunctuation(q.line);
    var tp := p.filename + ['['] + (lp + [':'] + (cp + "]"));
    var tq := q.filename + ['['] + (lq + [':'] + (cq + "]"));
    HeaderShape(p);
    HeaderShape(q);
    CancelLead("# from: ", tp, tq);
    SplitAtFirst(p.filename, lp + [':'] + (cp + "]"), q.filename, lq + [':'] + (cq + "]"), '[');
    SplitAtFirst(lp, cp + "]", lq, cq + "]", ':');
    CancelTail(cp, cq, "]");
    IntToStringInjective(p.line, q.line);
    IntToStringInjective(p.column, q.column);
  }

  lemma HeaderShape(p: InstructionPosition)
    ensures Header(p) == "# from: " + (p.filename + ['['] + (IntToString(p.line) + [':'] + (IntToString(p.column) + "]")))
  {
  }
}

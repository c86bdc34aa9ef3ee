/**
 Message normalization (`internal/normalize/normalize.go`) over the content model of
 `internal/adapter/adapter.go`.
 */
module Normalize {
  import opened Text

  datatype Role = System | User | Assistant | Tool | Other(name: Str)

  datatype Part = TextPart(text: Str) | OtherPart(raw: Str)

  /** Message content: a JSON string, a multipart array or null. */
  datatype Content = Plain(text: Str) | Multipart(parts: seq<Part>) | Null

  datatype ToolCall = ToolCall(id: Str, kind: Str, callee: Str, arguments: Str)

  datatype Message = Message(role: Role, content: Content, toolCallId: Str, toolCalls: seq<ToolCall>, name: Str)

  function PartsText(parts: seq<Part>): Str {
    if parts == [] then []
    else (if parts[0].TextPart? then parts[0].text else []) + PartsText(parts[1..])
  }

  /** `Content.Text`. */
  function TextOf(m: Message): Str {
    match m.content
    case Plain(t) => t
    case Multipart(parts) => PartsText(parts)
    case Null => []
  }

  /** `Content.SetText`. */
  function WithText(m: Message, t: Str): Message {
    m.(content := Plain(t))
  }

  const BREAK: Str := [10, 10]

  /** `strings.Join` with a blank line. */
  function Join(texts: seq<Str>): Str {
    if texts == [] then []
    else if |texts| == 1 then texts[0]
    else Join(texts[..|texts| - 1]) + BREAK + texts[|texts| - 1]
  }

  function Texts(ms: seq<Message>): seq<Str> {
    seq(|ms|, i requires 0 <= i < |ms| => TextOf(ms[i]))
  }

  // ---------------------------------------------------------------------------------------
  // Collapsing system messages
  // ---------------------------------------------------------------------------------------

  function Systems(ms: seq<Message>): seq<Message> {
    if ms == [] then []
    else Systems(ms[..|ms| - 1]) + if ms[|ms| - 1].role == System then [ms[|ms| - 1]] else []
  }

  function Rest(ms: seq<Message>): seq<Message> {
    if ms == [] then []
    else Rest(ms[..|ms| - 1]) + if ms[|ms| - 1].role == System then [] else [ms[|ms| - 1]]
  }

  function SystemMessage(t: Str): Message {
    Message(System, Plain(t), [], [], [])
  }

  function Collapsed(ms: seq<Message>): seq<Message> {
    if Systems(ms) == [] then ms else [SystemMessage(Join(Texts(Systems(ms))))] + Rest(ms)
  }

  /** `collapseSystem`. */
  method CollapseSystem(ms: seq<Message>) returns (out: seq<Message>)
    ensures out == Collapsed(ms)
  {
    var systems: seq<Str> := [];
    var rest := [];
    SplitNone();
    hide Systems, Rest, TextOf;
    for i := 0 to |ms|
      invariant systems == Texts(Systems(ms[..i])) && rest == Rest(ms[..i])
    {
      SplitMore(ms[..i], ms[i]);
      assert ms[..i] + [ms[i]] == ms[..i + 1];
      if ms[i].role == System {
        systems := systems + [TextOf(ms[i])];
        continue;
      }
      rest := rest + [ms[i]];
    }
    assert ms[..|ms|] == ms;
    if |systems| == 0 {
      return ms;
    }
    out := [SystemMessage(Join(systems))] + rest;
  }

  lemma SplitMore(ms: seq<Message>, m: Message)
    ensures Systems(ms + [m]) == Systems(ms) + if m.role == System then [m] else []
    ensures Rest(ms + [m]) == Rest(ms) + if m.role == System then [] else [m]
  {
    assert (ms + [m])[..|ms|] == ms;
  }

  lemma SplitNone()
    ensures Systems([]) == [] && Rest([]) == []
  {
  }

  lemma {:induction false} RestHasNoSystem(ms: seq<Message>)
    ensures forall i :: 0 <= i < |Rest(ms)| ==> Rest(ms)[i].role != System
    ensures Systems(ms) == [] ==> Rest(ms) == ms
  {
    hide Systems, Rest;
    SplitNone();
    if ms != [] {
      var n := |ms| - 1;
      RestHasNoSystem(ms[..n]);
      SplitMore(ms[..n], ms[n]);
      assert ms == ms[..n] + [ms[n]];
    }
  }

  /** At most one system message, and it is the first. */
  predicate OneLeadingSystem(ms: seq<Message>) {
    forall i :: 0 < i < |ms| ==> ms[i].role != System
  }

  lemma CollapsedLeads(ms: seq<Message>)
    ensures OneLeadingSystem(Collapsed(ms))
    ensures Systems(ms) != [] ==> Collapsed(ms)[0] == SystemMessage(Join(Texts(Systems(ms))))
    ensures Systems(ms) == [] ==> forall i :: 0 <= i < |ms| ==> ms[i].role != System
  {
    RestHasNoSystem(ms);
  }

  lemma {:induction false} NoSystems(ms: seq<Message>)
    requires forall i :: 0 <= i < |ms| ==> ms[i].role != System
    ensures Systems(ms) == [] && Rest(ms) == ms
  {
    hide Systems, Rest;
    SplitNone();
    if ms != [] {
      var n := |ms| - 1;
      NoSystems(ms[..n]);
      SplitMore(ms[..n], ms[n]);
      assert ms == ms[..n] + [ms[n]];
    }
  }

  lemma {:induction false} LeadingSystem(ms: seq<Message>)
    requires OneLeadingSystem(ms) && ms != [] && ms[0].role == System
    ensures Systems(ms) == [ms[0]] && Rest(ms) == ms[1..]
  {
    hide Systems, Rest;
    SplitNone();
    var n := |ms| - 1;
    SplitMore(ms[..n], ms[n]);
    assert ms == ms[..n] + [ms[n]];
    if n == 0 {
      assert ms[..0] == [];
    } else {
      LeadingSystem(ms[..n]);
      assert ms[..n][1..] + [ms[n]] == ms[1..];
    }
  }

  /** Collapsing again changes nothing when the system message is already the collapsed one. */
  lemma CollapsedFixed(ms: seq<Message>)
    requires OneLeadingSystem(ms)
    requires ms != [] && ms[0].role == System ==> ms[0] == SystemMessage(TextOf(ms[0]))
    ensures Collapsed(ms) == ms
  {
    if ms != [] && ms[0].role == System {
      LeadingSystem(ms);
      assert Texts([ms[0]]) == [TextOf(ms[0])];
    } else {
      NoSystems(ms);
    }
  }

  // ---------------------------------------------------------------------------------------
  // Merging consecutive turns
  // ---------------------------------------------------------------------------------------

  /** `m` is merged into a preceding `a`. */
  predicate Mergeable(a: Message, m: Message) {
    && a.role == m.role && m.role != Tool
    && !(m.role == Assistant && (m.toolCalls != [] || a.toolCalls != []))
  }

  function Absorb(out: seq<Message>, m: Message): seq<Message> {
    if out == [] || !Mergeable(out[|out| - 1], m) then out + [m]
    else out[..|out| - 1] + [WithText(out[|out| - 1], TextOf(out[|out| - 1]) + BREAK + TextOf(m))]
  }

  function Merged(ms: seq<Message>): seq<Message> {
    if ms == [] then [] else Absorb(Merged(ms[..|ms| - 1]), ms[|ms| - 1])
  }

  lemma MergedStep(ms: seq<Message>, i: nat)
    requires i < |ms|
    ensures Merged(ms[..i + 1]) == Absorb(Merged(ms[..i]), ms[i])
  {
    assert ms[..i + 1][..i] == ms[..i];
  }

  /** One turn of the loop: append to the buffer, or rewrite its last element in place. */
  method AbsorbInto(buf: array<Message>, n: nat, m: Message) returns (n': nat)
    requires n < buf.Length
    modifies buf
    ensures n <= n' <= n + 1 && buf[..n'] == Absorb(old(buf[..n]), m)
  {
    hide Mergeable, TextOf;
    ghost var before := buf[..n];
    if n > 0 && Mergeable(buf[n - 1], m) {
      buf[n - 1] := WithText(buf[n - 1], TextOf(buf[n - 1]) + BREAK + TextOf(m));
      assert buf[..n] == before[..n - 1] + [buf[n - 1]];
      return n;
    }
    buf[n] := m;
    assert buf[..n + 1] == before + [m];
    n' := n + 1;
  }

  /** `mergeConsecutive`. */
  method MergeConsecutive(ms: seq<Message>) returns (out: seq<Message>)
    ensures out == Merged(ms)
  {
    var buf := new Message[|ms|](_ => SystemMessage([]));
    var n := 0;
    assert buf[..0] == Merged(ms[..0]);
    hide Merged, Absorb;
    for i := 0 to |ms|
      invariant n <= i && buf[..n] == Merged(ms[..i])
    {
      MergedStep(ms, i);
      n := AbsorbInto(buf, n, ms[i]);
    }
    assert ms[..|ms|] == ms;
    out := buf[..n];
  }

  /** Merging cuts the list into consecutive runs. */
  function Runs(ms: seq<Message>): seq<seq<Message>> {
    if ms == [] then []
    else
      var n := |ms| - 1;
      var runs, out := Runs(ms[..n]), Merged(ms[..n]);
      if runs == [] || out == [] || !Mergeable(out[|out| - 1], ms[n]) then runs + [[ms[n]]]
      else runs[..|runs| - 1] + [runs[|runs| - 1] + [ms[n]]]
  }

  function Concat(runs: seq<seq<Message>>): seq<Message> {
    if runs == [] then [] else Concat(runs[..|runs| - 1]) + runs[|runs| - 1]
  }

  /** A run of one message stands for itself; a longer one keeps its first message's fields and joins
      the texts. */
  function Represent(run: seq<Message>): Message
    requires run != []
  {
    if |run| == 1 then run[0] else WithText(run[0], Join(Texts(run)))
  }

  ghost predicate Represents(out: seq<Message>, runs: seq<seq<Message>>) {
    |out| == |runs| && forall i :: 0 <= i < |runs| ==> runs[i] != [] && out[i] == Represent(runs[i])
  }

  lemma RepresentMore(run: seq<Message>, m: Message)
    requires run != []
    ensures Represent(run + [m]) == WithText(Represent(run), TextOf(Represent(run)) + BREAK + TextOf(m))
  {
    var longer := run + [m];
    assert Texts(longer)[..|run|] == Texts(run);
    assert TextOf(Represent(run)) == Join(Texts(run)) by {
      assert |run| == 1 ==> Texts(run) == [TextOf(run[0])];
    }
  }

  lemma ConcatMore(runs: seq<seq<Message>>, m: Message)
    ensures Concat(runs + [[m]]) == Concat(runs) + [m]
    ensures runs != [] ==> Concat(runs[..|runs| - 1] + [runs[|runs| - 1] + [m]]) == Concat(runs) + [m]
  {
    assert (runs + [[m]])[..|runs|] == runs;
    if runs != [] {
      var init, last := runs[..|runs| - 1], runs[|runs| - 1];
      assert (init + [last + [m]])[..|init|] == init;
    }
  }

  lemma RepresentsMore(out: seq<Message>, runs: seq<seq<Message>>, run: seq<Message>)
    requires Represents(out, runs) && run != []
    ensures Represents(out + [Represent(run)], runs + [run])
  {
    hide Represent;
  }

  lemma RepresentsInit(out: seq<Message>, runs: seq<seq<Message>>)
    requires Represents(out, runs) && runs != []
    ensures Represents(out[..|out| - 1], runs[..|runs| - 1])
    ensures runs[|runs| - 1] != [] && out[|out| - 1] == Represent(runs[|runs| - 1])
  {
    hide Represent;
  }

  /** A run of more than one message is of one role, and holds no tool turn. */
  predicate OneVoice(run: seq<Message>) {
    && (forall i, j :: 0 <= i < j < |run| ==> run[i].role == run[j].role)
    && (|run| > 1 ==> forall i :: 0 <= i < |run| ==> !ToolTurn(run[i]))
  }

  ghost predicate OneVoiceEach(runs: seq<seq<Message>>) {
    forall i :: 0 <= i < |runs| ==> OneVoice(runs[i])
  }

  lemma RunGrows(run: seq<Message>, m: Message)
    requires run != [] && OneVoice(run) && Mergeable(Represent(run), m)
    ensures OneVoice(run + [m])
  {
    hide TextOf;
    assert Represent(run).role == run[0].role && Represent(run).toolCalls == run[0].toolCalls;
  }

  lemma OneIsOneVoice(m: Message)
    ensures OneVoice([m])
  {
  }

  lemma OneVoiceInit(runs: seq<seq<Message>>)
    requires OneVoiceEach(runs) && runs != []
    ensures OneVoiceEach(runs[..|runs| - 1])
  {
    hide OneVoice;
  }

  lemma OneVoiceMore(runs: seq<seq<Message>>, run: seq<Message>)
    requires OneVoiceEach(runs) && OneVoice(run)
    ensures OneVoiceEach(runs + [run])
  {
    hide OneVoice;
  }

  /** The runs are the input in order, and each output message is one run: its text is the blank-line
      join of the run's texts and everything else is the run's first message. */
  lemma {:induction false} MergedIsRuns(ms: seq<Message>)
    ensures Concat(Runs(ms)) == ms && Represents(Merged(ms), Runs(ms)) && OneVoiceEach(Runs(ms))
  {
    if ms == [] {
      NoRuns();
    } else {
      var n := |ms| - 1;
      var before, m := ms[..n], ms[n];
      assert ms == before + [m];
      var runs, out := Runs(before), Merged(before);
      hide Mergeable, Represent, TextOf, Concat, Represents, OneVoice, OneVoiceEach;
      MergedIsRuns(before);
      SameCount(out, runs);
      ConcatMore(runs, m);
      if runs == [] || !Mergeable(out[|out| - 1], m) {
        RepresentOne(m);
        RepresentsMore(out, runs, [m]);
        OneIsOneVoice(m);
        OneVoiceMore(runs, [m]);
      } else {
        var last := runs[|runs| - 1];
        RepresentsInit(out, runs);
        RepresentMore(last, m);
        RepresentsMore(out[..|out| - 1], runs[..|runs| - 1], last + [m]);
        RunGrows(last, m);
        OneVoiceInit(runs);
        OneVoiceMore(runs[..|runs| - 1], last + [m]);
      }
    }
  }

  lemma SameCount(out: seq<Message>, runs: seq<seq<Message>>)
    requires Represents(out, runs)
    ensures |out| == |runs|
  {
  }

  lemma NoRuns()
    ensures Concat(Runs([])) == [] && Represents(Merged([]), Runs([]))
  {
  }

  lemma RepresentOne(m: Message)
    ensures Represent([m]) == m
  {
  }

  /** No two neighbours of the output could be merged further. */
  ghost predicate Separated(ms: seq<Message>) {
    forall i, j :: 0 <= i < j < |ms| && j == i + 1 ==> !Mergeable(ms[i], ms[j])
  }

  lemma {:induction false} MergedSeparated(ms: seq<Message>)
    ensures Separated(Merged(ms))
  {
    hide TextOf;
    if ms != [] {
      MergedSeparated(ms[..|ms| - 1]);
    }
  }

  lemma {:induction false} MergedFixed(ms: seq<Message>)
    requires Separated(ms)
    ensures Merged(ms) == ms
  {
    hide Mergeable;
    if ms != [] {
      var n := |ms| - 1;
      MergedFixed(ms[..n]);
      assert ms == ms[..n] + [ms[n]];
      if n > 0 {
        assert ms[..n][n - 1] == ms[n - 1];
      }
    }
  }

  /** A tool result, or an assistant turn that carries tool calls. */
  predicate ToolTurn(m: Message) {
    m.role == Tool || (m.role == Assistant && m.toolCalls != [])
  }

  function ToolTurns(ms: seq<Message>): seq<Message> {
    if ms == [] then []
    else ToolTurns(ms[..|ms| - 1]) + if ToolTurn(ms[|ms| - 1]) then [ms[|ms| - 1]] else []
  }

  lemma ToolTurnsMore(ms: seq<Message>, m: Message)
    ensures ToolTurns(ms + [m]) == ToolTurns(ms) + if ToolTurn(m) then [m] else []
  {
    assert (ms + [m])[..|ms|] == ms;
  }

  /** Merging keeps every tool turn, whole and in order. */
  lemma {:induction false} MergedKeepsToolTurns(ms: seq<Message>)
    ensures ToolTurns(Merged(ms)) == ToolTurns(ms)
  {
    hide TextOf;
    if ms != [] {
      var n := |ms| - 1;
      MergedKeepsToolTurns(ms[..n]);
      var out := Merged(ms[..n]);
      if out == [] || !Mergeable(out[|out| - 1], ms[n]) {
        ToolTurnsMore(out, ms[n]);
      } else {
        var last := out[|out| - 1];
        ToolTurnsMore(out[..|out| - 1], WithText(last, TextOf(last) + BREAK + TextOf(ms[n])));
        assert ToolTurns(Merged(ms)) == ToolTurns(out[..|out| - 1]) + [];
        assert !ToolTurn(last) && !ToolTurn(ms[n]);
      }
    }
  }

  lemma {:induction false} RestKeepsToolTurns(ms: seq<Message>)
    ensures ToolTurns(Rest(ms)) == ToolTurns(ms)
  {
    if ms != [] {
      var n := |ms| - 1;
      RestKeepsToolTurns(ms[..n]);
      if ms[n].role != System {
        ToolTurnsMore(Rest(ms[..n]), ms[n]);
      } else {
        assert Rest(ms) == Rest(ms[..n]);
      }
    }
  }

  lemma {:induction false} ToolTurnsAfterSystem(t: Str, ms: seq<Message>)
    ensures ToolTurns([SystemMessage(t)] + ms) == ToolTurns(ms)
  {
    var all := [SystemMessage(t)] + ms;
    if ms == [] {
      assert all[..0] == [];
      assert ToolTurns(all[..0]) == [];
    } else {
      var n := |ms| - 1;
      ToolTurnsAfterSystem(t, ms[..n]);
      assert all[..n + 1] == [SystemMessage(t)] + ms[..n];
    }
  }

  lemma CollapsedKeepsToolTurns(ms: seq<Message>)
    ensures ToolTurns(Collapsed(ms)) == ToolTurns(ms)
  {
    if Systems(ms) != [] {
      ToolTurnsAfterSystem(Join(Texts(Systems(ms))), Rest(ms));
      RestKeepsToolTurns(ms);
    }
  }

  /** Merging a list with one leading system message leaves that message where and as it is. */
  lemma {:induction false} MergedLeads(ms: seq<Message>)
    requires OneLeadingSystem(ms)
    ensures OneLeadingSystem(Merged(ms))
    ensures ms != [] ==> Merged(ms) != [] && Merged(ms)[0].role == ms[0].role
    ensures ms != [] && ms[0].role == System ==> Merged(ms)[0] == ms[0]
  {
    hide TextOf;
    if |ms| == 1 {
      assert ms[..0] == [];
      assert Merged(ms[..0]) == [];
    } else if ms != [] {
      MergedLeads(ms[..|ms| - 1]);
    }
  }

  // ---------------------------------------------------------------------------------------
  // Both rewrites
  // ---------------------------------------------------------------------------------------

  function Normal(ms: seq<Message>): seq<Message> {
    Merged(Collapsed(ms))
  }

  /** Adjacent equal roles remain only for tool turns. */
  ghost predicate Alternates(ms: seq<Message>) {
    forall i, j :: 0 <= i < j < |ms| && j == i + 1 && ms[i].role == ms[j].role ==> ToolTurn(ms[i]) || ToolTurn(ms[j])
  }

  /** The text of multipart content is its text parts in order. */
  lemma {:induction false} TextOfParts(a: seq<Part>, b: seq<Part>)
    ensures PartsText(a + b) == PartsText(a) + PartsText(b)
    ensures forall t :: PartsText([TextPart(t)]) == t && PartsText([OtherPart(t)]) == []
  {
    forall p: Part ensures PartsText([p]) == if p.TextPart? then p.text else [] {
      assert [p][1..] == [];
    }
    if a == [] {
      assert a + b == b;
    } else {
      assert (a + b)[1..] == a[1..] + b;
      TextOfParts(a[1..], b);
    }
  }

  /** A blank line stands between joined texts, and nothing around a single one. */
  lemma JoinIs(texts: seq<Str>, t: Str)
    ensures Join([]) == [] && Join([t]) == t
    ensures texts != [] ==> Join(texts + [t]) == Join(texts) + [10, 10] + t
  {
    assert (texts + [t])[..|texts|] == texts;
  }

  /** With both rewrites on: at most one system message, first; adjacent equal roles only around tool
      turns; tool turns kept whole and in order; and each message is a run of the collapsed input, joined. */
  lemma NormalForm(ms: seq<Message>)
    ensures OneLeadingSystem(Normal(ms)) && Alternates(Normal(ms))
    ensures ToolTurns(Normal(ms)) == ToolTurns(ms)
    ensures var runs := Runs(Collapsed(ms));
            Concat(runs) == Collapsed(ms) && Represents(Normal(ms), runs) && OneVoiceEach(runs)
    ensures Systems(ms) != [] ==> Normal(ms) != [] && Normal(ms)[0] == SystemMessage(Join(Texts(Systems(ms))))
  {
    hide Merged, Collapsed, Runs, Concat, Represents, ToolTurns, Systems, OneVoiceEach;
    CollapsedLeads(ms);
    MergedLeads(Collapsed(ms));
    MergedSeparated(Collapsed(ms));
    CollapsedKeepsToolTurns(ms);
    MergedKeepsToolTurns(Collapsed(ms));
    MergedIsRuns(Collapsed(ms));
    CollapsedNonEmpty(ms);
  }

  lemma CollapsedNonEmpty(ms: seq<Message>)
    ensures Systems(ms) != [] ==> Collapsed(ms) != []
  {
  }

  /** Normalizing twice is normalizing once. */
  lemma NormalIsIdempotent(ms: seq<Message>)
    ensures Normal(Normal(ms)) == Normal(ms)
  {
    hide Merged, Collapsed;
    var once := Normal(ms);
    CollapsedLeads(ms);
    MergedLeads(Collapsed(ms));
    MergedSeparated(Collapsed(ms));
    CollapsedHead(ms);
    MergedEmpty(Collapsed(ms));
    CollapsedFixed(once);
    MergedFixed(once);
  }

  lemma CollapsedHead(ms: seq<Message>)
    ensures var c := Collapsed(ms); c != [] && c[0].role == System ==> c[0] == SystemMessage(TextOf(c[0]))
  {
    CollapsedLeads(ms);
  }

  lemma MergedEmpty(ms: seq<Message>)
    ensures ms == [] ==> Merged(ms) == []
  {
  }

  // ---------------------------------------------------------------------------------------
  // Apply
  // ---------------------------------------------------------------------------------------

  datatype Target = Target(defaultMaxTokens: int, collapseSystem: bool, requireAlternation: bool)

  class UnifiedRequest {
    var model: Str
    var maxTokens: Option<int>
    var messages: array<Message>

    constructor (model: Str, maxTokens: Option<int>, messages: array<Message>)
      ensures this.model == model && this.maxTokens == maxTokens && this.messages == messages
    {
      this.model, this.maxTokens, this.messages := model, maxTokens, messages;
    }
  }

  function DefaultTokens(maxTokens: Option<int>, default: int): Option<int> {
    if maxTokens.None? && default > 0 then Some(default) else maxTokens
  }

  function Rewritten(ms: seq<Message>, t: Target): seq<Message> {
    var collapsed := if t.collapseSystem then Collapsed(ms) else ms;
    if t.requireAlternation then Merged(collapsed) else collapsed
  }

  /** `Apply`: a new request over a new message array; nothing that existed before is written. */
  method Apply(req: UnifiedRequest, t: Target) returns (out: UnifiedRequest)
    ensures fresh(out) && fresh(out.messages)
    ensures out.model == req.model && out.maxTokens == DefaultTokens(req.maxTokens, t.defaultMaxTokens)
    ensures req.maxTokens.Some? || t.defaultMaxTokens <= 0 ==> out.maxTokens == req.maxTokens
    ensures req.maxTokens.None? && t.defaultMaxTokens > 0 ==> out.maxTokens == Some(t.defaultMaxTokens)
    ensures out.messages[..] == Rewritten(req.messages[..], t)
    ensures t.collapseSystem && t.requireAlternation ==> out.messages[..] == Normal(req.messages[..])
    ensures !t.collapseSystem && !t.requireAlternation ==> out.messages[..] == req.messages[..]
    ensures req.messages == old(req.messages) && req.messages[..] == old(req.messages[..])
  {
    var msgs := req.messages[..];
    if t.collapseSystem {
      msgs := CollapseSystem(msgs);
    }
    if t.requireAlternation {
      msgs := MergeConsecutive(msgs);
    }
    var arr := new Message[|msgs|](i requires 0 <= i < |msgs| => msgs[i]);
    assert arr[..] == msgs;
    var maxTokens := req.maxTokens;
    if maxTokens.None? && t.defaultMaxTokens > 0 {
      maxTokens := Some(t.defaultMaxTokens);
    }
    out := new UnifiedRequest(req.model, maxTokens, arr);
  }
}

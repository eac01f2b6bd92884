/** The variable file written for Terraform (crates/nclav-driver/src/terraform.rs, `tfvar`, `write_tfvars`). */
module Tfvars {
  import opened Prelude
  import opened Ordering

  // ----- writing -----

  /** Replacement of every occurrence of a character. */
  function Replace(s: string, c: char, sub: string): string {
    if s == [] then [] else (if s[0] == c then sub else [s[0]]) + Replace(s[1..], c, sub)
  }

  /** Backslashes first, then double quotes. */
  function Escape(value: string): string {
    Replace(Replace(value, '\\', "\\\\"), '"', "\\\"")
  }

  function TfVar(key: string, value: string): string {
    key + (" = \"" + (Escape(value) + "\"\n"))
  }

  const HEADER :=
    "# Generated by nclav — do not edit\n\n" +
    "# nclav metadata — always injected. Declare these as optional variables\n" +
    "# and apply via local.nclav_labels on all resources you create.\n"

  const INPUTS_HEADER := "\n# Partition inputs (from inputs: in config.yml)\n"

  const ENCLAVE_KEY := "nclav_enclave"
  const PARTITION_KEY := "nclav_partition"

  function VarLines(inputs: map<string, string>, keys: seq<string>): string
    requires forall k :: k in keys ==> k in inputs
  {
    if keys == [] then "" else
      assert keys == [keys[0]] + keys[1..];
      TfVar(keys[0], inputs[keys[0]]) + VarLines(inputs, keys[1..])
  }

  /** The inputs section, by key; nothing at all when there are no inputs. */
  function InputsText(title: string, inputs: map<string, string>): string {
    if inputs == map[] then "" else title + VarLines(inputs, SortedKeys(inputs.Keys))
  }

  /** A header, the two metadata lines, and the inputs under their title. */
  function Layout(header: string, title: string, enclave: string, partition: string, inputs: map<string, string>)
    : string
  {
    header + (TfVar(ENCLAVE_KEY, enclave) + (TfVar(PARTITION_KEY, partition) + InputsText(title, inputs)))
  }

  function FileText(enclave: string, partition: string, inputs: map<string, string>): string {
    Layout(HEADER, INPUTS_HEADER, enclave, partition, inputs)
  }

  method WriteLayout(header: string, title: string, enclave: string, partition: string, inputs: map<string, string>)
    returns (content: string)
    ensures content == Layout(header, title, enclave, partition, inputs)
  {
    content := header;
    content := content + TfVar(ENCLAVE_KEY, enclave);
    content := content + TfVar(PARTITION_KEY, partition);
    ghost var preamble := content;
    if inputs != map[] {
      content := content + title;
      ghost var start := content;
      var keys := SortedKeys(inputs.Keys);
      for i := 0 to |keys|
        invariant content + VarLines(inputs, keys[i..]) == start + VarLines(inputs, keys)
      {
        var line := TfVar(keys[i], inputs[keys[i]]);
        VarLinesStep(inputs, keys, i);
        Assoc(content, line, VarLines(inputs, keys[i + 1..]));
        content := content + line;
      }
      Assoc(preamble, title, VarLines(inputs, keys));
    }
    LayoutParts(header, title, enclave, partition, inputs);
  }

  lemma {:induction false} VarLinesStep(inputs: map<string, string>, keys: seq<string>, i: nat)
    requires i < |keys| && forall k :: k in keys ==> k in inputs
    ensures VarLines(inputs, keys[i..]) == TfVar(keys[i], inputs[keys[i]]) + VarLines(inputs, keys[i + 1..])
  {
    assert keys[i..][1..] == keys[i + 1..];
  }

  lemma {:induction false} LayoutParts(header: string, title: string, enclave: string, partition: string,
                                       inputs: map<string, string>)
    ensures Layout(header, title, enclave, partition, inputs) ==
            ((header + TfVar(ENCLAVE_KEY, enclave)) + TfVar(PARTITION_KEY, partition)) + InputsText(title, inputs)
  {
    var tail := InputsText(title, inputs);
    Assoc(header + TfVar(ENCLAVE_KEY, enclave), TfVar(PARTITION_KEY, partition), tail);
    Assoc(header, TfVar(ENCLAVE_KEY, enclave), TfVar(PARTITION_KEY, partition) + tail);
  }

  /** What is written gives back everything it was written from. */
  method WriteTfvars(enclave: string, partition: string, inputs: map<string, string>) returns (content: string)
    ensures content == FileText(enclave, partition, inputs)
    ensures PlainKeys(inputs) ==> Tells(ReadFile(content), enclave, partition, inputs)
  {
    content := WriteLayout(HEADER, INPUTS_HEADER, enclave, partition, inputs);
    if PlainKeys(inputs) {
      ReadBack(enclave, partition, inputs);
    }
  }

  // ----- the escape, one character at a time -----

  function EscapeChar(c: char): string {
    if c == '\\' then "\\\\" else if c == '"' then "\\\"" else [c]
  }

  function EscapeChars(value: string): string {
    if value == [] then [] else EscapeChar(value[0]) + EscapeChars(value[1..])
  }

  lemma {:induction false} ReplaceAppend(a: string, b: string, c: char, sub: string)
    ensures Replace(a + b, c, sub) == Replace(a, c, sub) + Replace(b, c, sub)
  {
    if a == [] {
      assert a + b == b;
    } else {
      assert (a + b)[1..] == a[1..] + b;
      ReplaceAppend(a[1..], b, c, sub);
    }
  }

  /** The two passes do not get in each other's way. */
  lemma {:induction false} TwoPassesAreOne(value: string)
    ensures Escape(value) == EscapeChars(value)
  {
    if value != [] {
      var first := if value[0] == '\\' then "\\\\" else [value[0]];
      ReplaceAppend(first, Replace(value[1..], '\\', "\\\\"), '"', "\\\"");
      assert Replace(first, '"', "\\\"") == EscapeChar(value[0]) by {
        if value[0] == '\\' {
          assert first[1..] == "\\" && first[1..][1..] == "";
          assert Replace("\\", '"', "\\\"") == "\\" + Replace("", '"', "\\\"");
        } else {
          assert first[1..] == "";
        }
      }
      TwoPassesAreOne(value[1..]);
    }
  }

  // ----- reading -----

  /** Scan a quoted text up to its closing quote: the text, and what follows the quote. */
  function ScanQuoted(s: string): Option<(string, string)> {
    if s == [] then None
    else if s[0] == '"' then Some(("", s[1..]))
    else if s[0] == '\\' then
      if |s| < 2 then None
      else
        var r := ScanQuoted(s[2..]);
        if r.None? then None else Some(([s[1]] + r.value.0, r.value.1))
    else
      var r := ScanQuoted(s[1..]);
      if r.None? then None else Some(([s[0]] + r.value.0, r.value.1))
  }

  /** Everything before the first space, and the rest from the space on. */
  function ScanKey(s: string): Option<(string, string)> {
    if s == [] then None
    else if s[0] == ' ' then Some(("", s))
    else
      var r := ScanKey(s[1..]);
      if r.None? then None else Some(([s[0]] + r.value.0, r.value.1))
  }

  function Strip(s: string, prefix: string): Option<string> {
    if prefix <= s then Some(s[|prefix|..]) else None
  }

  /** One line `key = "value"`: its key, its value, and the text behind it. */
  function ReadVar(s: string): Option<(string, string, string)> {
    var k := ScanKey(s);
    if k.None? then None
    else
      var q := Strip(k.value.1, " = \"");
      if q.None? then None
      else
        var v := ScanQuoted(q.value);
        if v.None? then None
        else
          var rest := Strip(v.value.1, "\n");
          if rest.None? then None else Some((k.value.0, v.value.0, rest.value))
  }

  lemma {:induction false} ScanShrinks(s: string)
    ensures ScanQuoted(s).Some? ==> |ScanQuoted(s).value.1| < |s|
    ensures ScanKey(s).Some? ==> |ScanKey(s).value.1| <= |s|
    decreases |s|
  {
    if s != [] {
      ScanShrinks(s[1..]);
      if |s| >= 2 {
        ScanShrinks(s[2..]);
      }
    }
  }

  lemma {:induction false} ReadVarShrinks(s: string)
    ensures ReadVar(s).Some? ==> |ReadVar(s).value.2| < |s|
  {
    ScanShrinks(s);
    var k := ScanKey(s);
    if k.Some? && Strip(k.value.1, " = \"").Some? {
      ScanShrinks(Strip(k.value.1, " = \"").value);
    }
  }

  /** The lines up to the end of the text, in order. */
  function ReadVars(s: string): Option<seq<(string, string)>>
    decreases |s|
  {
    if s == "" then Some([])
    else
      ReadVarShrinks(s);
      var line := ReadVar(s);
      if line.None? then None
      else
        var rest := ReadVars(line.value.2);
        if rest.None? then None else Some([(line.value.0, line.value.1)] + rest.value)
  }

  /** What a file says: the enclave, the partition, and the inputs as they stand in it. */
  type Reading = Option<(string, string, seq<(string, string)>)>

  function ReadLayout(header: string, title: string, s: string): Reading {
    var body := Strip(s, header);
    if body.None? then None
    else
      var e := ReadVar(body.value);
      if e.None? || e.value.0 != "nclav_enclave" then None
      else
        var p := ReadVar(e.value.2);
        if p.None? || p.value.0 != "nclav_partition" then None
        else if p.value.2 == "" then Some((e.value.1, p.value.1, []))
        else
          var lines := Strip(p.value.2, title);
          if lines.None? then None
          else
            var inputs := ReadVars(lines.value);
            if inputs.None? then None else Some((e.value.1, p.value.1, inputs.value))
  }

  function ReadFile(s: string): Reading {
    ReadLayout(HEADER, INPUTS_HEADER, s)
  }

  /** The reading has this enclave and partition, and exactly these inputs, each once, in the order of their keys. */
  ghost predicate Tells(r: Reading, enclave: string, partition: string, inputs: map<string, string>) {
    && r.Some? && r.value.0 == enclave && r.value.1 == partition
    && (forall i, j :: 0 <= i < j < |r.value.2| ==> LexLess(r.value.2[i].0, r.value.2[j].0))
    && forall k, v :: (k, v) in r.value.2 <==> k in inputs && inputs[k] == v
  }

  // ----- reading back what was written -----

  lemma {:induction false} ScanEscaped(value: string, rest: string)
    ensures ScanQuoted(Escape(value) + ("\"" + rest)) == Some((value, rest))
    decreases |value|
  {
    TwoPassesAreOne(value);
    ScanEscapedChars(value, rest);
  }

  lemma {:induction false} ScanEscapedChars(value: string, rest: string)
    ensures ScanQuoted(EscapeChars(value) + ("\"" + rest)) == Some((value, rest))
    decreases |value|
  {
    var end := "\"" + rest;
    if value == [] {
      assert EscapeChars(value) + end == end && end[1..] == rest;
    } else {
      var c, tail := EscapeChar(value[0]), EscapeChars(value[1..]) + end;
      ScanEscapedChars(value[1..], rest);
      Assoc(c, EscapeChars(value[1..]), end);
      assert (c + tail)[|c|..] == tail;
      assert value == [value[0]] + value[1..];
    }
  }

  predicate PlainKey(k: string) {
    ' ' !in k
  }

  ghost predicate PlainKeys(inputs: map<string, string>) {
    forall k :: k in inputs ==> PlainKey(k)
  }

  lemma {:induction false} ScanPlainKey(k: string, rest: string)
    requires PlainKey(k) && rest != [] && rest[0] == ' '
    ensures ScanKey(k + rest) == Some((k, rest))
  {
    if k == [] {
      assert k + rest == rest;
    } else {
      assert k[0] in k;
      assert k == [k[0]] + k[1..];
      assert (k + rest)[1..] == k[1..] + rest;
      ScanPlainKey(k[1..], rest);
    }
  }

  lemma {:induction false} ReadVarBack(key: string, value: string, rest: string)
    requires PlainKey(key)
    ensures ReadVar(TfVar(key, value) + rest) == Some((key, value, rest))
  {
    var quoted := Escape(value) + ("\"" + ("\n" + rest));
    var after := " = \"" + quoted;
    assert TfVar(key, value) + rest == key + after by {
      Assoc(key, " = \"" + (Escape(value) + "\"\n"), rest);
      Assoc(" = \"", Escape(value) + "\"\n", rest);
      Assoc(Escape(value), "\"\n", rest);
      assert "\"\n" + rest == "\"" + ("\n" + rest);
    }
    ScanPlainKey(key, after);
    assert after[4..] == quoted;
    ScanEscaped(value, "\n" + rest);
    assert ("\n" + rest)[1..] == rest;
  }

  function PairsOf(inputs: map<string, string>, keys: seq<string>): (r: seq<(string, string)>)
    requires forall k :: k in keys ==> k in inputs
    ensures |r| == |keys| && forall i :: 0 <= i < |r| ==> r[i] == (keys[i], inputs[keys[i]])
  {
    seq(|keys|, i requires 0 <= i < |keys| => (keys[i], inputs[keys[i]]))
  }

  lemma {:induction false} ReadVarsBack(inputs: map<string, string>, keys: seq<string>)
    requires PlainKeys(inputs) && forall k :: k in keys ==> k in inputs
    ensures ReadVars(VarLines(inputs, keys)) == Some(PairsOf(inputs, keys))
    decreases |keys|
  {
    if keys != [] {
      var k, rest := keys[0], keys[1..];
      assert keys == [k] + rest;
      var line, tail := TfVar(k, inputs[k]), VarLines(inputs, rest);
      ReadVarBack(k, inputs[k], tail);
      ReadVarsBack(inputs, rest);
      assert VarLines(inputs, keys) == line + tail;
      assert |line| > 0;
      assert PairsOf(inputs, keys) == [(k, inputs[k])] + PairsOf(inputs, rest);
    }
  }

  lemma {:induction false} StripPrefix(prefix: string, rest: string)
    ensures Strip(prefix + rest, prefix) == Some(rest)
  {
    assert (prefix + rest)[|prefix|..] == rest;
  }

  lemma {:induction false} ReadInputsBack(title: string, inputs: map<string, string>)
    requires PlainKeys(inputs) && inputs != map[]
    ensures Strip(InputsText(title, inputs), title).Some?
    ensures ReadVars(Strip(InputsText(title, inputs), title).value)
            == Some(PairsOf(inputs, SortedKeys(inputs.Keys)))
  {
    var keys := SortedKeys(inputs.Keys);
    StripPrefix(title, VarLines(inputs, keys));
    ReadVarsBack(inputs, keys);
  }

  lemma {:induction false} PairsTell(inputs: map<string, string>, enclave: string, partition: string)
    ensures Tells(Some((enclave, partition, PairsOf(inputs, SortedKeys(inputs.Keys)))), enclave, partition, inputs)
  {
    var keys := SortedKeys(inputs.Keys);
    var pairs := PairsOf(inputs, keys);
    forall k, v ensures (k, v) in pairs <==> k in inputs && inputs[k] == v {
      if k in inputs && inputs[k] == v {
        assert k in keys;
        var i :| 0 <= i < |keys| && keys[i] == k;
        assert pairs[i] == (k, v);
      }
      if (k, v) in pairs {
        var i :| 0 <= i < |pairs| && pairs[i] == (k, v);
        assert keys[i] in keys;
      }
    }
  }

  lemma {:induction false} ReadLayoutBack(header: string, title: string, enclave: string, partition: string,
                                          inputs: map<string, string>)
    requires PlainKeys(inputs) && title != ""
    ensures ReadLayout(header, title, Layout(header, title, enclave, partition, inputs)) ==
            Some((enclave, partition, PairsOf(inputs, SortedKeys(inputs.Keys))))
  {
    hide TfVar, ReadVar, ReadVars, VarLines;
    var tail := InputsText(title, inputs);
    var second := TfVar(PARTITION_KEY, partition) + tail;
    StripPrefix(header, TfVar(ENCLAVE_KEY, enclave) + second);
    ReadVarBack(ENCLAVE_KEY, enclave, second);
    ReadVarBack(PARTITION_KEY, partition, tail);
    if inputs != map[] {
      ReadInputsBack(title, inputs);
    }
  }

  /** The file gives back the enclave, the partition and every input. */
  lemma {:induction false} ReadBack(enclave: string, partition: string, inputs: map<string, string>)
    requires PlainKeys(inputs)
    ensures Tells(ReadFile(FileText(enclave, partition, inputs)), enclave, partition, inputs)
  {
    ReadLayoutBack(HEADER, INPUTS_HEADER, enclave, partition, inputs);
    PairsTell(inputs, enclave, partition);
  }

  /** So no two settings are written as the same file. */
  lemma {:induction false} FileTextInjective(e1: string, p1: string, m1: map<string, string>, e2: string, p2: string,
                                             m2: map<string, string>)
    requires PlainKeys(m1) && PlainKeys(m2) && FileText(e1, p1, m1) == FileText(e2, p2, m2)
    ensures e1 == e2 && p1 == p2 && m1 == m2
  {
    ReadBack(e1, p1, m1);
    ReadBack(e2, p2, m2);
    TellsOnce(ReadFile(FileText(e1, p1, m1)), e1, p1, m1, m2);
  }

  lemma {:induction false} TellsOnce(r: Reading, e: string, p: string, m1: map<string, string>, m2: map<string, string>)
    requires Tells(r, e, p, m1) && r.Some? && forall k, v :: (k, v) in r.value.2 <==> k in m2 && m2[k] == v
    ensures m1 == m2
  {
    forall k | k in m1 ensures k in m2 && m2[k] == m1[k] {
      assert (k, m1[k]) in r.value.2;
    }
    forall k | k in m2 ensures k in m1 {
      assert (k, m2[k]) in r.value.2;
    }
  }

  // ----- reading as a Terraform quoted template -----

  /** A marker that opens an interpolation or a directive. */
  predicate Opens(s: string) {
    |s| >= 2 && (s[0] == '$' || s[0] == '%') && s[1] == '{'
  }

  /** A doubled marker, which stands for the marker itself. */
  predicate OpensDoubled(s: string) {
    |s| >= 3 && (s[0] == '$' || s[0] == '%') && s[1] == s[0] && s[2] == '{'
  }

  function Simple(c: char): Option<char> {
    if c == 'n' then Some('\n') else if c == 'r' then Some('\r') else if c == 't' then Some('\t')
    else if c == '"' then Some('"') else if c == '\\' then Some('\\') else None
  }

  /**
   A quoted template as Terraform's language reads it: the literal text up to the closing quote, or
   nothing when it spans lines, opens an interpolation, or has an unknown escape.
   */
  function ScanTemplate(s: string): Option<(string, string)> {
    if s == [] || s[0] == '\n' || Opens(s) then None
    else if s[0] == '"' then Some(("", s[1..]))
    else if s[0] == '\\' then
      if |s| < 2 || Simple(s[1]).None? then None
      else
        var r := ScanTemplate(s[2..]);
        if r.None? then None else Some(([Simple(s[1]).value] + r.value.0, r.value.1))
    else if OpensDoubled(s) then
      var r := ScanTemplate(s[3..]);
      if r.None? then None else Some((s[1..3] + r.value.0, r.value.1))
    else
      var r := ScanTemplate(s[1..]);
      if r.None? then None else Some(([s[0]] + r.value.0, r.value.1))
  }

  /** One line, and no marker of an interpolation or a directive. */
  predicate PlainValue(v: string) {
    v == [] || (v[0] != '\n' && !Opens(v) && PlainValue(v[1..]))
  }

  /** Terraform reads the value back as written exactly when it is a plain one. */
  lemma {:induction false} TemplateReadsBackIffPlain(value: string, rest: string)
    ensures var r := ScanTemplate(Escape(value) + ("\"" + rest));
            && (r.Some? ==> |r.value.0| <= |value|)
            && (r == Some((value, rest)) <==> PlainValue(value))
  {
    TwoPassesAreOne(value);
    TemplateChars(value, rest);
  }

  function Push(c: char, r: Option<(string, string)>): Option<(string, string)> {
    if r.None? then None else Some(([c] + r.value.0, r.value.1))
  }

  lemma {:induction false} TemplateStep(c: char, tail: string)
    requires !OpensDoubled(EscapeChar(c) + tail)
    ensures var text := EscapeChar(c) + tail;
            ScanTemplate(text) == if c == '\n' || Opens(text) then None else Push(c, ScanTemplate(tail))
  {
    var text := EscapeChar(c) + tail;
    if c == '\\' || c == '"' {
      assert text[2..] == tail && text[0] == '\\' && text[1] == c;
    } else {
      assert text[1..] == tail && text[0] == c;
    }
  }

  lemma {:induction false} PushBack(c: char, v: string, rest: string, r: Option<(string, string)>)
    ensures Push(c, r) == Some(([c] + v, rest)) <==> r == Some((v, rest))
  {
    if r.Some? && [c] + r.value.0 == [c] + v {
      assert ([c] + r.value.0)[1..] == r.value.0 && ([c] + v)[1..] == v;
    }
  }

  lemma {:induction false} TemplateChars(value: string, rest: string)
    ensures var r := ScanTemplate(EscapeChars(value) + ("\"" + rest));
            && (r.Some? ==> |r.value.0| <= |value|)
            && (r == Some((value, rest)) <==> PlainValue(value))
    decreases |value|
  {
    var end := "\"" + rest;
    if value == [] {
      assert EscapeChars(value) + end == end && end[1..] == rest;
    } else {
      var c, v := value[0], value[1..];
      var tail := EscapeChars(v) + end;
      Assoc(EscapeChar(c), EscapeChars(v), end);
      SameHead(value, rest);
      if OpensDoubled(EscapeChars(value) + end) {
        DoubledBreaks(value, rest);
      } else {
        hide ScanTemplate, OpensDoubled, Opens, EscapeChar;
        TemplateChars(v, rest);
        TemplateStep(c, tail);
        PushBack(c, v, rest, ScanTemplate(tail));
        assert value == [c] + v;
      }
    }
  }

  /** Escaping moves no '{' next to a marker, and away from none. */
  lemma {:induction false} SameHead(value: string, rest: string)
    requires value != []
    ensures var text := EscapeChars(value) + ("\"" + rest);
            && (value[0] != '\\' && value[0] != '"' ==> text[0] == value[0])
            && (Opens(text) <==> Opens(value))
            && (OpensDoubled(text) <==> OpensDoubled(value))
  {
    if |value| >= 2 {
      assert EscapeChars(value) == EscapeChar(value[0]) + (EscapeChar(value[1]) + EscapeChars(value[2..]));
      if |value| >= 3 {
        assert EscapeChars(value[2..]) == EscapeChar(value[2]) + EscapeChars(value[3..]);
      }
    }
  }

  lemma {:induction false} DoubledBreaks(value: string, rest: string)
    requires OpensDoubled(value) && OpensDoubled(EscapeChars(value) + ("\"" + rest))
    ensures var r := ScanTemplate(EscapeChars(value) + ("\"" + rest));
            (r.Some? ==> |r.value.0| <= |value|) && r != Some((value, rest)) && !PlainValue(value)
    decreases |value|, 0
  {
    var end := "\"" + rest;
    var v := value[3..];
    assert value[1..][0] == value[1] && value[1..][1..][0] == value[2] && value[1..][1..][1..] == v;
    assert EscapeChars(value[1..][1..]) == [value[2]] + EscapeChars(v);
    assert EscapeChars(value[1..]) == [value[1]] + ([value[2]] + EscapeChars(v));
    assert EscapeChars(value) == [value[0]] + ([value[1]] + ([value[2]] + EscapeChars(v)));
    assert (EscapeChars(value) + end)[3..] == EscapeChars(v) + end;
    TemplateChars(v, rest);
    assert Opens(value[1..]);
    assert !PlainValue(value[1..]);
  }
}

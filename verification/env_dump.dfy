/** Reading back the environment a login shell dumps with `env -0`
    (tidewave-core/src/shell_env.rs, `parse_env_dump`). */
module EnvDump {
  import opened Wrappers

  datatype Variable = Variable(name: string, value: string)

  const NUL: char := 0 as char

  /** The pieces of `text` between the NULs; always at least one. */
  function Split(text: string): (pieces: seq<string>)
    ensures |pieces| >= 1
  {
    if text == [] then [[]]
    else if text[0] == NUL then [[]] + Split(text[1..])
    else
      var rest := Split(text[1..]);
      [[text[0]] + rest[0]] + rest[1..]
  }

  /** Cuts an entry at its first `=`. */
  function SplitOnce(entry: string): Option<Variable> {
    if entry == [] then None
    else if entry[0] == '=' then Some(Variable([], entry[1..]))
    else
      match SplitOnce(entry[1..])
      case None => None
      case Some(v) => Some(Variable([entry[0]] + v.name, v.value))
  }

  /** Later entries win; entries without a name are skipped. */
  function Collected(entries: seq<string>): map<string, string> {
    if entries == [] then map[] else
    var n := |entries| - 1;
    var variable := SplitOnce(entries[n]);
    if variable.Some? && variable.value.name != []
        then Collected(entries[..n])[variable.value.name := variable.value.value]
    else Collected(entries[..n])
  }

  method ParseEnvDump(text: string) returns (env: map<string, string>)
    ensures env == Collected(Split(text))
  {
    env := map[];
    var entries := Split(text);
    for i := 0 to |entries|
      invariant env == Collected(entries[..i])
    {
      assert entries[..i + 1][..i] == entries[..i];
      var variable := SplitOnce(entries[i]);
      if variable.Some? {
        if variable.value.name != [] {
          env := env[variable.value.name := variable.value.value];
        }
      }
    }
    assert entries[..|entries|] == entries;
  }

  // ---------------------------------------------------------------- round trip

  /** What a process environment can hold. */
  predicate Storable(v: Variable) {
    v.name != [] && '=' !in v.name && NUL !in v.name && NUL !in v.value
  }

  function Entry(v: Variable): string {
    v.name + ['='] + v.value
  }

  /** The output of `env -0`: a NUL after every entry, the last one, too. */
  function Dump(variables: seq<Variable>): string {
    if variables == [] then [] else Entry(variables[0]) + [NUL] + Dump(variables[1..])
  }

  function Environment(variables: seq<Variable>): map<string, string> {
    if variables == [] then map[] else
    var n := |variables| - 1;
    Environment(variables[..n])[variables[n].name := variables[n].value]
  }

  /** Whatever the values contain, the dump reads back as the environment. */
  lemma DumpReadsBack(variables: seq<Variable>)
    requires forall i :: 0 <= i < |variables| ==> Storable(variables[i])
    ensures Collected(Split(Dump(variables))) == Environment(variables)
  {
    var entries := Entries(variables);
    SplitDump(variables);
    assert Split(Dump(variables))[..|entries|] == entries;
    CollectsEntries(variables);
  }

  function Entries(variables: seq<Variable>): (entries: seq<string>)
    ensures |entries| == |variables|
  {
    seq(|variables|, i requires 0 <= i < |variables| => Entry(variables[i]))
  }

  lemma {:induction false} SplitPiece(piece: string, rest: string)
    requires NUL !in piece
    ensures Split(piece + [NUL] + rest) == [piece] + Split(rest)
  {
    var text := piece + [NUL] + rest;
    if piece == [] {
      assert text[1..] == rest;
    } else {
      assert text[1..] == piece[1..] + [NUL] + rest && text[0] == piece[0] && piece[0] in piece;
      assert piece == [piece[0]] + piece[1..];
      SplitPiece(piece[1..], rest);
    }
  }

  lemma {:induction false} SplitDump(variables: seq<Variable>)
    requires forall i :: 0 <= i < |variables| ==> Storable(variables[i])
    ensures Split(Dump(variables)) == Entries(variables) + [[]]
  {
    if variables != [] {
      SplitPiece(Entry(variables[0]), Dump(variables[1..]));
      SplitDump(variables[1..]);
      assert Entries(variables) == [Entry(variables[0])] + Entries(variables[1..]);
    }
  }

  lemma {:induction false} SplitOnceEntry(name: string, value: string)
    requires '=' !in name
    ensures SplitOnce(name + ['='] + value) == Some(Variable(name, value))
  {
    var entry := name + ['='] + value;
    if name == [] {
      assert entry[1..] == value;
    } else {
      assert entry[1..] == name[1..] + ['='] + value && entry[0] == name[0] && name[0] in name;
      assert name == [name[0]] + name[1..];
      SplitOnceEntry(name[1..], value);
    }
  }

  lemma {:induction false} CollectsEntries(variables: seq<Variable>)
    requires forall i :: 0 <= i < |variables| ==> Storable(variables[i])
    ensures Collected(Entries(variables)) == Environment(variables)
  {
    if variables != [] {
      var n := |variables| - 1;
      assert Entries(variables)[..n] == Entries(variables[..n]);
      SplitOnceEntry(variables[n].name, variables[n].value);
      CollectsEntries(variables[..n]);
    }
  }
}

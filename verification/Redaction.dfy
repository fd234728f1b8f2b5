/** Redaction of sensitive fields in log records: nested dictionaries, lists and tuples. */
module Redaction {
  import opened Strings

  /** A logged value; a dictionary keeps the order of its entries. `Atom` is any other value. */
  datatype Value =
    | Text(text: string)
    | Atom(id: int)
    | List(items: seq<Value>)
    | Tuple(elements: seq<Value>)
    | Dict(fields: Fields)

  datatype Entry = Entry(key: string, value: Value)
  type Fields = seq<Entry>

  const REDACTED := Text("[REDACTED]")

  /** The literal patterns: each matches a key that contains it, in any case, before its first line break. */
  const PATTERNS: seq<string> := [
    "password", "secret", "token", "credential", "apikey", "api_key", "access_key", "secret_key", "jwt", "bearer",
    "authorization", "client_secret", "refresh_token", "access_token", "private_key", "public_key", "session",
    "cookie", "csrf", "x-api-key", "x-auth"]

  predicate ContainsAny(s: string, patterns: seq<string>) {
    patterns != [] && (Contains(s, patterns[0]) || ContainsAny(s, patterns[1..]))
  }

  /** `auth.*header`: the second word after the first. */
  predicate AuthHeader(s: string) {
    exists i | 0 <= i <= |s| :: OccursAt(s, "auth", i) && Contains(s[i + 4..], "header")
  }

  function FirstLine(key: string): string {
    Lower(key[..IndexOf(key, '\n')])
  }

  predicate Sensitive(key: string) {
    var line := FirstLine(key);
    AuthHeader(line) || ContainsAny(line, PATTERNS)
  }

  /** What `re.match(".*word.*", key, IGNORECASE)` means: the word occurs with no line break before it. */
  predicate PatternMatches(key: string, word: string) {
    exists i | 0 <= i <= |key| :: '\n' !in key[..i] && OccursAt(Lower(key), word, i)
  }

  lemma OccursInPrefix(s: string, n: nat, word: string, i: nat)
    requires i + |word| <= n <= |s|
    ensures OccursAt(s[..n], word, i) <==> OccursAt(s, word, i)
  {
    assert s[..n][i..i + |word|] == s[i..i + |word|];
  }

  lemma FirstLineIsPrefix(key: string)
    ensures FirstLine(key) == Lower(key)[..IndexOf(key, '\n')]
  {
  }

  lemma NoBreakBefore(key: string, i: nat)
    requires i <= |key|
    ensures '\n' !in key[..i] <==> i <= IndexOf(key, '\n')
  {
    var n := IndexOf(key, '\n');
    assert i <= n ==> key[..i] == key[..n][..i];
    assert n < i ==> key[..i][n] == key[n];
  }

  lemma WordEndsBefore(key: string, word: string, i: nat, n: nat)
    requires '\n' !in word && OccursAt(Lower(key), word, i) && i <= n < |key| && key[n] == '\n'
    ensures i + |word| <= n
  {
    forall x | i <= x < i + |word| ensures Lower(key)[x] != '\n' {
      assert Lower(key)[i..i + |word|][x - i] == word[x - i];
      assert word[x - i] in word;
    }
    assert Lower(key)[n] == '\n';
  }

  lemma MatchIsInFirstLine(key: string, word: string, i: nat)
    requires word != "" && '\n' !in word
    requires i <= |key| && '\n' !in key[..i] && OccursAt(Lower(key), word, i)
    ensures OccursAt(FirstLine(key), word, i)
  {
    var n := IndexOf(key, '\n');
    NoBreakBefore(key, i);
    if n < |key| {
      WordEndsBefore(key, word, i, n);
    }
    OccursInPrefix(Lower(key), n, word, i);
    FirstLineIsPrefix(key);
  }

  lemma FirstLineMatches(key: string, word: string, i: nat)
    requires OccursAt(FirstLine(key), word, i)
    ensures i <= |key| && '\n' !in key[..i] && OccursAt(Lower(key), word, i)
  {
    FirstLineIsPrefix(key);
    NoBreakBefore(key, i);
    OccursInPrefix(Lower(key), IndexOf(key, '\n'), word, i);
  }

  /** The dot of a pattern does not match a line break, so a pattern sees the first line of a key only. */
  lemma PatternsSeeTheFirstLine(key: string, word: string)
    requires word != "" && '\n' !in word
    ensures PatternMatches(key, word) <==> Contains(FirstLine(key), word)
  {
    if PatternMatches(key, word) {
      var i :| 0 <= i <= |key| && '\n' !in key[..i] && OccursAt(Lower(key), word, i);
      MatchIsInFirstLine(key, word, i);
    }
    if Contains(FirstLine(key), word) {
      var i :| 0 <= i <= |FirstLine(key)| && OccursAt(FirstLine(key), word, i);
      FirstLineMatches(key, word, i);
    }
  }

  // ----- The filter

  function Redact(v: Value): Value {
    match v
    case Dict(fields) => Dict(RedactFields(fields))
    case List(items) => List(RedactSequence(items))
    case Tuple(elements) => List(RedactSequence(elements))
    case _ => v
  }

  function RedactFields(fields: Fields): (r: Fields)
    ensures |r| == |fields|
  {
    if fields == [] then []
    else
      [RedactEntry(fields[0])] + RedactFields(fields[1..])
  }

  function RedactEntry(e: Entry): Entry {
    Entry(e.key, if Sensitive(e.key) then REDACTED else Redact(e.value))
  }

  function RedactSequence(items: seq<Value>): (r: seq<Value>)
    ensures |r| == |items|
  {
    if items == [] then [] else [Redact(items[0])] + RedactSequence(items[1..])
  }

  /** The loop over a dictionary, which builds a fresh one. */
  method FilterFields(fields: Fields) returns (redacted: Fields)
    ensures redacted == RedactFields(fields)
    decreases fields, 1
  {
    redacted := [];
    for n := 0 to |fields|
      invariant redacted + RedactFields(fields[n..]) == RedactFields(fields)
    {
      var e := FilterEntry(fields[n]);
      assert fields[n..][1..] == fields[n + 1..];
      assert redacted + ([e] + RedactFields(fields[n + 1..])) == redacted + [e] + RedactFields(fields[n + 1..]);
      redacted := redacted + [e];
    }
    assert fields[|fields|..] == [];
  }

  method FilterEntry(e: Entry) returns (r: Entry)
    ensures r == RedactEntry(e)
    decreases e, 1
  {
    if Sensitive(e.key) {
      return Entry(e.key, REDACTED);
    }
    var value := FilterValue(e.value);
    r := Entry(e.key, value);
  }

  /** The loop over a list or a tuple, which builds a fresh list. */
  method FilterSequence(items: seq<Value>) returns (result: seq<Value>)
    ensures result == RedactSequence(items)
    decreases items, 1
  {
    result := [];
    for n := 0 to |items|
      invariant result + RedactSequence(items[n..]) == RedactSequence(items)
    {
      var value := FilterValue(items[n]);
      assert items[n..][1..] == items[n + 1..];
      assert result + ([value] + RedactSequence(items[n + 1..])) == result + [value] + RedactSequence(items[n + 1..]);
      result := result + [value];
    }
    assert items[|items|..] == [];
  }

  /** The type tests that both loops make on a value. */
  method FilterValue(v: Value) returns (r: Value)
    ensures r == Redact(v)
    decreases v, 0
  {
    match v
    case Dict(fields) =>
      var f := FilterFields(fields);
      r := Dict(f);
    case List(items) =>
      var l := FilterSequence(items);
      r := List(l);
    case Tuple(elements) =>
      var l := FilterSequence(elements);
      r := List(l);
    case _ => r := v;
  }

  // ----- What redaction guarantees

  /** At every depth, a sensitive key holds the placeholder. */
  predicate Clean(v: Value) {
    match v
    case Dict(fields) => forall i | 0 <= i < |fields| ::
      if Sensitive(fields[i].key) then fields[i].value == REDACTED else Clean(fields[i].value)
    case List(items) => forall i | 0 <= i < |items| :: Clean(items[i])
    case Tuple(elements) => forall i | 0 <= i < |elements| :: Clean(elements[i])
    case _ => true
  }

  /** The elements of a list or a tuple. */
  function Elements(v: Value): seq<Value>
    requires v.List? || v.Tuple?
  {
    if v.List? then v.items else v.elements
  }

  /**
   * `r` is `v` outside the redacted values: the same keys in the same order, the same lengths, the same other
   * values, tuples read as lists.
   */
  predicate SameOutsideRedactions(v: Value, r: Value) {
    match v
    case Dict(fields) =>
      && r.Dict? && |r.fields| == |fields|
      && forall i | 0 <= i < |fields| ::
           && r.fields[i].key == fields[i].key
           && (!Sensitive(fields[i].key) ==> SameOutsideRedactions(fields[i].value, r.fields[i].value))
    case List(items) =>
      && r.List? && |r.items| == |items|
      && forall i | 0 <= i < |items| :: SameOutsideRedactions(items[i], r.items[i])
    case Tuple(elements) =>
      && r.List? && |r.items| == |elements|
      && forall i | 0 <= i < |elements| :: SameOutsideRedactions(elements[i], r.items[i])
    case _ => r == v
  }

  lemma {:induction false} RedactedFieldsAt(fields: Fields, i: nat)
    requires i < |fields|
    ensures RedactFields(fields)[i] ==
              Entry(fields[i].key, if Sensitive(fields[i].key) then REDACTED else Redact(fields[i].value))
  {
    if i > 0 {
      RedactedFieldsAt(fields[1..], i - 1);
    }
  }

  lemma {:induction false} RedactedSequenceAt(items: seq<Value>, i: nat)
    requires i < |items|
    ensures RedactSequence(items)[i] == Redact(items[i])
  {
    if i > 0 {
      RedactedSequenceAt(items[1..], i - 1);
    }
  }

  /** Redaction leaves no sensitive key, at any depth, with a value of its own; and changes nothing else. */
  lemma {:induction false} RedactionIsComplete(v: Value)
    ensures Clean(Redact(v)) && SameOutsideRedactions(v, Redact(v))
  {
    match v
    case Dict(fields) =>
      forall i | 0 <= i < |fields|
        ensures var e := RedactFields(fields)[i];
                && e.key == fields[i].key
                && (if Sensitive(e.key) then e.value == REDACTED
                    else Clean(e.value) && SameOutsideRedactions(fields[i].value, e.value))
      {
        RedactedFieldsAt(fields, i);
        RedactionIsComplete(fields[i].value);
      }
    case List(items) => RedactedItemsAreComplete(v, items);
    case Tuple(elements) => RedactedItemsAreComplete(v, elements);
    case _ =>
  }

  lemma {:induction false} RedactedItemsAreComplete(v: Value, items: seq<Value>)
    requires (v.List? || v.Tuple?) && Elements(v) == items
    ensures forall i | 0 <= i < |items| ::
              Clean(RedactSequence(items)[i]) && SameOutsideRedactions(items[i], RedactSequence(items)[i])
    decreases v, 0
  {
    forall i | 0 <= i < |items|
      ensures Clean(RedactSequence(items)[i]) && SameOutsideRedactions(items[i], RedactSequence(items)[i])
    {
      RedactedSequenceAt(items, i);
      RedactionIsComplete(items[i]);
    }
  }

  /** Tuples read as lists, at every depth. */
  function Listed(v: Value): Value {
    match v
    case Dict(fields) =>
      Dict(seq(|fields|, i requires 0 <= i < |fields| => Entry(fields[i].key, Listed(fields[i].value))))
    case List(items) => List(seq(|items|, i requires 0 <= i < |items| => Listed(items[i])))
    case Tuple(elements) => List(seq(|elements|, i requires 0 <= i < |elements| => Listed(elements[i])))
    case _ => v
  }

  /**
   * Redaction does nothing but read tuples as lists exactly on the values that are clean already. So it is
   * the identity on clean values without tuples, and redacting twice is redacting once.
   */
  lemma {:induction false} CleanValuesAreKept(v: Value)
    ensures Clean(v) <==> Redact(v) == Listed(v)
  {
    match v
    case Dict(fields) =>
      forall i | 0 <= i < |fields|
        ensures RedactFields(fields)[i].key == fields[i].key
        ensures (if Sensitive(fields[i].key) then fields[i].value == REDACTED else Clean(fields[i].value))
                <==> RedactFields(fields)[i].value == Listed(fields[i].value)
      {
        RedactedFieldsAt(fields, i);
        CleanValuesAreKept(fields[i].value);
      }
    case List(items) => CleanItemsAreKept(v, items);
    case Tuple(elements) => CleanItemsAreKept(v, elements);
    case _ =>
  }

  lemma {:induction false} CleanItemsAreKept(v: Value, items: seq<Value>)
    requires (v.List? || v.Tuple?) && Elements(v) == items
    ensures (forall i | 0 <= i < |items| :: Clean(items[i])) <==>
              RedactSequence(items) == seq(|items|, i requires 0 <= i < |items| => Listed(items[i]))
    decreases v, 0
  {
    forall i | 0 <= i < |items| ensures Clean(items[i]) <==> RedactSequence(items)[i] == Listed(items[i]) {
      RedactedSequenceAt(items, i);
      CleanValuesAreKept(items[i]);
    }
  }

  lemma {:induction false} RedactedValuesHaveNoTuples(v: Value)
    ensures Listed(Redact(v)) == Redact(v)
  {
    match v
    case Dict(fields) =>
      forall i | 0 <= i < |fields| ensures Listed(RedactFields(fields)[i].value) == RedactFields(fields)[i].value {
        RedactedFieldsAt(fields, i);
        RedactedValuesHaveNoTuples(fields[i].value);
      }
    case List(items) => RedactedItemsHaveNoTuples(v, items);
    case Tuple(elements) => RedactedItemsHaveNoTuples(v, elements);
    case _ =>
  }

  lemma {:induction false} RedactedItemsHaveNoTuples(v: Value, items: seq<Value>)
    requires (v.List? || v.Tuple?) && Elements(v) == items
    ensures forall i | 0 <= i < |items| :: Listed(RedactSequence(items)[i]) == RedactSequence(items)[i]
    decreases v, 0
  {
    forall i | 0 <= i < |items| ensures Listed(RedactSequence(items)[i]) == RedactSequence(items)[i] {
      RedactedSequenceAt(items, i);
      RedactedValuesHaveNoTuples(items[i]);
    }
  }

  lemma RedactingTwiceIsRedactingOnce(v: Value)
    ensures Redact(Redact(v)) == Redact(v)
  {
    RedactionIsComplete(v);
    CleanValuesAreKept(Redact(v));
    RedactedValuesHaveNoTuples(v);
  }
}

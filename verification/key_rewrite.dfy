/**
 The key rewrite replaceDots applies to a decoded log record before it is encoded:
 every "." in a string key, at any depth of nested maps, becomes the configured
 replacement. Records are trees of ordered key-value maps.
 */
module KeyRewrite {

  /** A map key: a string, or a key of some other type, which the rewrite leaves alone. */
  datatype Key = Text(s: string) | Other(id: int)

  /**
   A record value: a nested map, the only kind the rewrite descends into; a list,
   whose elements it does not visit; or any other scalar.
   */
  datatype Value =
    | Object(fields: seq<Field>)
    | List(items: seq<Value>)
    | Atom(repr: string)

  datatype Field = Field(key: Key, value: Value)

  /**
   Replace every occurrence of the character from in s by the string to. The two
   one-character cases and ReplaceAllConcat determine the result on every string.
   */
  function ReplaceAll(s: string, from: char, to: string): (r: string)
    ensures |s| == 1 && s[0] == from ==> r == to
    ensures |s| == 1 && s[0] != from ==> r == s
    ensures from !in to ==> from !in r
    ensures from !in s ==> r == s
    ensures |to| == 1 ==> |r| == |s|
  {
    if |s| == 0 then ""
    else (if s[0] == from then to else [s[0]]) + ReplaceAll(s[1..], from, to)
  }

  /** The rewrite works piecewise: the rewrite of a concatenation is the concatenation of the rewrites. */
  lemma {:induction false} ReplaceAllConcat(a: string, b: string, from: char, to: string)
    ensures ReplaceAll(a + b, from, to) == ReplaceAll(a, from, to) + ReplaceAll(b, from, to)
    decreases |a|
  {
    if |a| == 0 {
      assert a + b == b;
    } else {
      assert (a + b)[0] == a[0];
      assert (a + b)[1..] == a[1..] + b;
      ReplaceAllConcat(a[1..], b, from, to);
    }
  }

  function RewriteKey(k: Key, from: char, to: string): Key {
    match k
    case Text(s) => Text(ReplaceAll(s, from, to))
    case Other(_) => k
  }

  /**
   Rewrite every string key of every map reachable through maps alone; keys of other
   types, values that are not maps, and the order of fields stay as they are.
   */
  function RewriteKeys(v: Value, from: char, to: string): (r: Value)
    ensures r.Object? <==> v.Object?
    ensures !v.Object? ==> r == v
    ensures v.Object? ==> |r.fields| == |v.fields|
    // field by field, in order: a string key is rewritten, any other key is kept, and
    // the value is rewritten the same way
    ensures v.Object? ==> forall i :: 0 <= i < |v.fields| ==>
              && (v.fields[i].key.Text? ==> r.fields[i].key == Text(ReplaceAll(v.fields[i].key.s, from, to)))
              && (v.fields[i].key.Other? ==> r.fields[i].key == v.fields[i].key)
              && r.fields[i].value == RewriteKeys(v.fields[i].value, from, to)
    decreases v
  {
    match v
    case Object(fields) =>
      Object(seq(|fields|, i requires 0 <= i < |fields| =>
        Field(RewriteKey(fields[i].key, from, to), RewriteKeys(fields[i].value, from, to))))
    case _ => v
  }

  /** replaceDots: the rewrite with "." as the character replaced. */
  function ReplaceDots(v: Value, replacement: string): Value {
    RewriteKeys(v, '.', replacement)
  }

  /** No string key of any map reachable through maps contains c. */
  predicate KeysAvoid(v: Value, c: char)
    decreases v
  {
    match v
    case Object(fields) =>
      forall i :: 0 <= i < |fields| ==>
        (fields[i].key.Text? ==> c !in fields[i].key.s) && KeysAvoid(fields[i].value, c)
    case _ => true
  }

  /** Replacing c by a single fresh character and back restores the string. */
  lemma {:induction false} ReplaceAllRoundTrip(s: string, from: char, c: char)
    requires c != from && c !in s
    ensures ReplaceAll(ReplaceAll(s, from, [c]), c, [from]) == s
    decreases |s|
  {
    if |s| > 0 {
      ReplaceAllRoundTrip(s[1..], from, c);
      var head := if s[0] == from then [c] else [s[0]];
      var t := ReplaceAll(s, from, [c]);
      assert t == head + ReplaceAll(s[1..], from, [c]);
      assert t[0] == head[0] && t[1..] == ReplaceAll(s[1..], from, [c]);
    }
  }

  /** With a replacement free of dots, no string key keeps a dot after replaceDots. */
  lemma {:induction false} ReplaceDotsClearsDots(v: Value, replacement: string)
    requires '.' !in replacement
    ensures KeysAvoid(ReplaceDots(v, replacement), '.')
    decreases v
  {
    match v
    case Object(fields) =>
      var r := ReplaceDots(v, replacement);
      forall i | 0 <= i < |fields|
        ensures (r.fields[i].key.Text? ==> '.' !in r.fields[i].key.s) && KeysAvoid(r.fields[i].value, '.')
      {
        ReplaceDotsClearsDots(fields[i].value, replacement);
      }
    case _ =>
  }

  /**
   replaceDots leaves a record whose string keys have no dot exactly as it was: keys of
   other types, dot-free string keys and every value not reached through maps are kept.
   */
  lemma {:induction false} ReplaceDotsKeepsDotFree(v: Value, replacement: string)
    requires KeysAvoid(v, '.')
    ensures ReplaceDots(v, replacement) == v
    decreases v
  {
    match v
    case Object(fields) =>
      var r := ReplaceDots(v, replacement);
      forall i | 0 <= i < |fields|
        ensures r.fields[i] == fields[i]
      {
        ReplaceDotsKeepsDotFree(fields[i].value, replacement);
      }
      assert r.fields == fields;
    case _ =>
  }

  /**
   replaceDots with a one-character replacement that no string key contains can be
   undone: rewriting that character back to "." gives the original record.
   */
  lemma {:induction false} ReplaceDotsRoundTrip(v: Value, c: char)
    requires c != '.' && KeysAvoid(v, c)
    ensures RewriteKeys(ReplaceDots(v, [c]), c, ".") == v
    decreases v
  {
    match v
    case Object(fields) =>
      var once := ReplaceDots(v, [c]);
      var back := RewriteKeys(once, c, ".");
      forall i | 0 <= i < |fields|
        ensures back.fields[i] == fields[i]
      {
        ReplaceDotsRoundTrip(fields[i].value, c);
        match fields[i].key
        case Text(s) => ReplaceAllRoundTrip(s, '.', c);
        case Other(_) =>
      }
      assert back.fields == fields;
    case _ =>
  }
}

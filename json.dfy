/** JSON values as Python's `json` module sees them, the text of a JSON file
    as a sequence of lexical tokens (whitespace and indentation dropped),
    `json.dumps` and `json.loads` between the two, and the dictionary and
    list operations the editors apply to decoded values. */
module Json {
  import opened Common

  datatype Json =
    | JNull
    | JBool(b: bool)
    | JNum(x: real)
    | JStr(s: string)
    | JArr(items: seq<Json>)
    | JObj(members: seq<Member>)

  /** One `"key": value` entry of a dictionary. */
  datatype Member = Member(key: string, value: Json)

  datatype Tok = LBrace | RBrace | LBracket | RBracket | Colon | Comma | TNull | TTrue | TFalse | TNum(x: real) | TStr(s: string)

  // ------------------------------------------------------------ dictionaries

  function Keys(ms: seq<Member>): (ks: seq<string>)
    ensures |ks| == |ms|
    ensures forall i :: 0 <= i < |ms| ==> ks[i] == ms[i].key
  {
    seq(|ms|, i requires 0 <= i < |ms| => ms[i].key)
  }

  predicate Distinct(ks: seq<string>)
  {
    forall i, j :: 0 <= i < j < |ks| ==> ks[i] != ks[j]
  }

  /** `d[k]` on a dictionary, None for a missing key. */
  function Lookup(ms: seq<Member>, k: string): (v: Option<Json>)
    ensures v.Some? <==> k in Keys(ms)
  {
    if ms == [] then None
    else if ms[0].key == k then Some(ms[0].value)
    else
      assert Keys(ms) == [ms[0].key] + Keys(ms[1..]);
      Lookup(ms[1..], k)
  }

  /** `d[k] = v`: an existing key keeps its place, a new one goes last. */
  function Assign(ms: seq<Member>, k: string, v: Json): (r: seq<Member>)
  {
    if ms == [] then [Member(k, v)]
    else if ms[0].key == k then [Member(k, v)] + ms[1..]
    else
      [ms[0]] + Assign(ms[1..], k, v)
  }

  /** An existing key keeps its place, a new one goes last. */
  lemma {:induction false} AssignKeys(ms: seq<Member>, k: string, v: Json)
    ensures k in Keys(ms) ==> Keys(Assign(ms, k, v)) == Keys(ms)
    ensures k !in Keys(ms) ==> Keys(Assign(ms, k, v)) == Keys(ms) + [k]
  {
    if ms != [] && ms[0].key != k {
      KeysTail(ms);
      AssignKeys(ms[1..], k, v);
      KeysTail(Assign(ms, k, v));
    } else if ms != [] {
      KeysTail(ms);
      KeysTail(Assign(ms, k, v));
    }
  }

  lemma {:induction false} LookupAssign(ms: seq<Member>, k: string, v: Json, k2: string)
    ensures Lookup(Assign(ms, k, v), k2) == if k2 == k then Some(v) else Lookup(ms, k2)
  {
    if ms != [] && ms[0].key != k {
      LookupAssign(ms[1..], k, v, k2);
    }
  }

  /** Assigning the same value twice is assigning it once. */
  lemma {:induction false} AssignAgain(ms: seq<Member>, k: string, v: Json)
    ensures Assign(Assign(ms, k, v), k, v) == Assign(ms, k, v)
  {
    if ms != [] && ms[0].key != k {
      AssignAgain(ms[1..], k, v);
      assert Assign(ms, k, v)[1..] == Assign(ms[1..], k, v);
    }
  }

  /** `del d[k]` for a key that is present: the other keys keep their order. */
  function Remove(ms: seq<Member>, k: string): (r: seq<Member>)
    ensures |r| <= |ms|
  {
    if ms == [] then []
    else if ms[0].key == k then ms[1..]
    else [ms[0]] + Remove(ms[1..], k)
  }

  lemma {:induction false} LookupRemove(ms: seq<Member>, k: string, k2: string)
    requires Distinct(Keys(ms))
    ensures Lookup(Remove(ms, k), k2) == if k2 == k then None else Lookup(ms, k2)
  {
    if ms != [] {
      assert Keys(ms) == [ms[0].key] + Keys(ms[1..]);
      LookupRemove(ms[1..], k, k2);
    }
  }

  /** With distinct keys, each member is what its key looks up. */
  lemma {:induction false} LookupAt(ms: seq<Member>, i: nat)
    requires Distinct(Keys(ms))
    requires i < |ms|
    ensures Lookup(ms, ms[i].key) == Some(ms[i].value)
  {
    if i > 0 {
      assert Keys(ms)[0] != Keys(ms)[i];
      assert Keys(ms[1..]) == Keys(ms)[1..];
      assert ms[1..][i - 1] == ms[i];
      LookupAt(ms[1..], i - 1);
    }
  }

  /** A dictionary built from a member list: later duplicates overwrite the
      value at the key's first position, as `dict(pairs)` does. */
  function Normalize(ps: seq<Member>): (ms: seq<Member>)
    ensures Distinct(Keys(ms))
  {
    if ps == [] then []
    else
      var init := Normalize(ps[..|ps| - 1]);
      AssignDistinct(init, ps[|ps| - 1].key, ps[|ps| - 1].value);
      Assign(init, ps[|ps| - 1].key, ps[|ps| - 1].value)
  }

  lemma {:induction false} AssignDistinct(ms: seq<Member>, k: string, v: Json)
    requires Distinct(Keys(ms))
    ensures Distinct(Keys(Assign(ms, k, v)))
  {
    AssignKeys(ms, k, v);
    if k !in Keys(ms) {
      var ks := Keys(ms) + [k];
      forall i, j | 0 <= i < j < |ks|
        ensures ks[i] != ks[j]
      {
        if j == |ks| - 1 {
          assert ks[i] in Keys(ms);
        }
      }
    }
  }

  lemma {:induction false} AssignFresh(ms: seq<Member>, k: string, v: Json)
    requires k !in Keys(ms)
    ensures Assign(ms, k, v) == ms + [Member(k, v)]
  {
    if ms != [] {
      assert ms[0].key != k && k !in Keys(ms[1..]) by {
        KeysTail(ms);
      }
      AssignFresh(ms[1..], k, v);
      assert ms + [Member(k, v)] == [ms[0]] + (ms[1..] + [Member(k, v)]);
    }
  }

  lemma KeysTail(ms: seq<Member>)
    requires ms != []
    ensures Keys(ms) == [ms[0].key] + Keys(ms[1..])
  {
  }

  /** A member list with distinct keys is already a dictionary. */
  lemma {:induction false} NormalizeDistinct(ps: seq<Member>)
    requires Distinct(Keys(ps))
    ensures Normalize(ps) == ps
  {
    if ps != [] {
      var init := ps[..|ps| - 1];
      var last := ps[|ps| - 1];
      assert Normalize(init) == init && last.key !in Keys(init) by {
        DistinctInit(ps);
        NormalizeDistinct(init);
      }
      AssignFresh(init, last.key, last.value);
      assert init + [last] == ps;
    }
  }

  lemma {:induction false} DistinctInit(ps: seq<Member>)
    requires ps != [] && Distinct(Keys(ps))
    ensures Distinct(Keys(ps[..|ps| - 1]))
    ensures ps[|ps| - 1].key !in Keys(ps[..|ps| - 1])
  {
    var init := ps[..|ps| - 1];
    assert Keys(init) == Keys(ps)[..|ps| - 1];
    forall i | 0 <= i < |init|
      ensures Keys(init)[i] != ps[|ps| - 1].key
    {
      assert Keys(ps)[i] != Keys(ps)[|ps| - 1];
    }
  }

  /** Every dictionary inside the value has distinct keys: what `json.loads`
      can produce. */
  predicate WellFormed(j: Json)
    decreases j, 1
  {
    match j
    case JArr(items) => ItemsWellFormed(items)
    case JObj(ms) => Distinct(Keys(ms)) && MembersWellFormed(ms)
    case _ => true
  }

  predicate ItemsWellFormed(items: seq<Json>)
    decreases items, 0
  {
    forall i :: 0 <= i < |items| ==> WellFormed(items[i])
  }

  predicate MembersWellFormed(ms: seq<Member>)
    decreases ms, 0
  {
    forall i :: 0 <= i < |ms| ==> WellFormed(ms[i].value)
  }

  // ------------------------------------------------------------------ dumps

  /** `json.dumps`: the token sequence of a value. */
  function Dump(j: Json): (ts: seq<Tok>)
    ensures |ts| > 0
    decreases j, 1
  {
    match j
    case JNull => [TNull]
    case JBool(b) => [if b then TTrue else TFalse]
    case JNum(x) => [TNum(x)]
    case JStr(s) => [TStr(s)]
    case JArr(items) => [LBracket] + DumpItems(items) + [RBracket]
    case JObj(ms) => [LBrace] + DumpMembers(ms) + [RBrace]
  }

  /** The items separated by commas. */
  function DumpItems(items: seq<Json>): seq<Tok>
    decreases items, 0
  {
    if items == [] then []
    else if |items| == 1 then Dump(items[0])
    else Dump(items[0]) + [Comma] + DumpItems(items[1..])
  }

  /** The members `"key": value` separated by commas. */
  function DumpMembers(ms: seq<Member>): seq<Tok>
    decreases ms, 0
  {
    if ms == [] then []
    else if |ms| == 1 then [TStr(ms[0].key), Colon] + Dump(ms[0].value)
    else [TStr(ms[0].key), Colon] + Dump(ms[0].value) + [Comma] + DumpMembers(ms[1..])
  }

  // ------------------------------------------------------------------ loads

  /** What a parser read, and the tokens after it. */
  datatype Parsed<T> = Parsed(got: T, rest: seq<Tok>)

  /** One value at the head of the tokens, and the tokens after it; a
      malformed document raises `JSONDecodeError`, a `ValueError`. */
  function ParseValue(ts: seq<Tok>): (r: Result<Parsed<Json>>)
    ensures r.Ok? ==> |r.value.rest| < |ts|
    ensures r.Ok? ==> WellFormed(r.value.got)
    decreases |ts|, 0
  {
    if ts == [] then Err(ValueError)
    else match ts[0]
      case TNull => Ok(Parsed(JNull, ts[1..]))
      case TTrue => Ok(Parsed(JBool(true), ts[1..]))
      case TFalse => Ok(Parsed(JBool(false), ts[1..]))
      case TNum(x) => Ok(Parsed(JNum(x), ts[1..]))
      case TStr(s) => Ok(Parsed(JStr(s), ts[1..]))
      case LBracket =>
        if |ts| > 1 && ts[1] == RBracket then Ok(Parsed(JArr([]), ts[2..]))
        else
          var Parsed(items, rest) :- ParseItems(ts[1..]);
          if rest != [] && rest[0] == RBracket then Ok(Parsed(JArr(items), rest[1..])) else Err(ValueError)
      case LBrace =>
        if |ts| > 1 && ts[1] == RBrace then Ok(Parsed(JObj([]), ts[2..]))
        else
          var Parsed(ps, rest) :- ParseMembers(ts[1..]);
          if rest != [] && rest[0] == RBrace then
            NormalizeWellFormed(ps);
            Ok(Parsed(JObj(Normalize(ps)), rest[1..]))
          else Err(ValueError)
      case _ => Err(ValueError)
  }

  /** `value (, value)*`, stopping before the first token that is not a comma. */
  function ParseItems(ts: seq<Tok>): (r: Result<Parsed<seq<Json>>>)
    ensures r.Ok? ==> |r.value.rest| < |ts|
    ensures r.Ok? ==> ItemsWellFormed(r.value.got)
    decreases |ts|, 1
  {
    var Parsed(v, rest) :- ParseValue(ts);
    if rest != [] && rest[0] == Comma then
      var Parsed(more, rest2) :- ParseItems(rest[1..]);
      Ok(Parsed([v] + more, rest2))
    else Ok(Parsed([v], rest))
  }

  /** `"key": value (, "key": value)*`. */
  function ParseMembers(ts: seq<Tok>): (r: Result<Parsed<seq<Member>>>)
    ensures r.Ok? ==> |r.value.rest| < |ts|
    ensures r.Ok? ==> MembersWellFormed(r.value.got)
    decreases |ts|, 1
  {
    if |ts| < 2 || !ts[0].TStr? || ts[1] != Colon then Err(ValueError)
    else
      var Parsed(v, rest) :- ParseValue(ts[2..]);
      if rest != [] && rest[0] == Comma then
        var Parsed(more, rest2) :- ParseMembers(rest[1..]);
        Ok(Parsed([Member(ts[0].s, v)] + more, rest2))
      else Ok(Parsed([Member(ts[0].s, v)], rest))
  }

  lemma {:induction false} AssignWellFormed(ms: seq<Member>, k: string, v: Json)
    requires MembersWellFormed(ms) && WellFormed(v)
    ensures MembersWellFormed(Assign(ms, k, v))
  {
    if ms == [] {
      ConsWellFormed(Member(k, v), []);
    } else if ms[0].key != k {
      MembersWellFormedTail(ms);
      AssignWellFormed(ms[1..], k, v);
      ConsWellFormed(ms[0], Assign(ms[1..], k, v));
    } else {
      MembersWellFormedTail(ms);
      ConsWellFormed(Member(k, v), ms[1..]);
    }
  }

  lemma {:induction false} ConsWellFormed(m: Member, ms: seq<Member>)
    requires WellFormed(m.value) && MembersWellFormed(ms)
    ensures MembersWellFormed([m] + ms)
  {
    forall i | 0 <= i < |[m] + ms|
      ensures WellFormed(([m] + ms)[i].value)
    {
      if i > 0 {
        assert ([m] + ms)[i] == ms[i - 1];
      }
    }
  }

  lemma {:induction false} NormalizeWellFormed(ps: seq<Member>)
    requires MembersWellFormed(ps)
    ensures MembersWellFormed(Normalize(ps))
  {
    if ps != [] {
      var init := ps[..|ps| - 1];
      assert MembersWellFormed(init) by {
        forall i | 0 <= i < |init|
          ensures WellFormed(init[i].value)
        {
          assert init[i] == ps[i];
        }
      }
      NormalizeWellFormed(init);
      AssignWellFormed(Normalize(init), ps[|ps| - 1].key, ps[|ps| - 1].value);
    }
  }

  lemma {:induction false} LookupWellFormed(ms: seq<Member>, k: string)
    requires MembersWellFormed(ms)
    requires Lookup(ms, k).Some?
    ensures WellFormed(Lookup(ms, k).value)
  {
    if ms[0].key != k {
      assert MembersWellFormed(ms[1..]) by {
        forall i | 0 <= i < |ms[1..]|
          ensures WellFormed(ms[1..][i].value)
        {
          assert ms[1..][i] == ms[i + 1];
        }
      }
      LookupWellFormed(ms[1..], k);
    }
  }

  /** `json.loads`: a whole document is one value. */
  function Loads(ts: seq<Tok>): (r: Result<Json>)
    ensures r.Ok? ==> WellFormed(r.value)
  {
    var Parsed(v, rest) :- ParseValue(ts);
    if rest == [] then Ok(v) else Err(ValueError)
  }

  // ------------------------------------------------------------- round trip

  lemma {:induction false} ParseDump(j: Json, rest: seq<Tok>)
    requires WellFormed(j)
    ensures ParseValue(Dump(j) + rest) == Ok(Parsed(j, rest))
    decreases j, 2
  {
    match j
    case JArr(items) =>
      if items == [] {
        assert Dump(j) + rest == [LBracket, RBracket] + rest;
      } else {
        ParseDumpArr(items, rest);
      }
    case JObj(ms) =>
      if ms == [] {
        assert Dump(j) + rest == [LBrace, RBrace] + rest;
      } else {
        ParseDumpObj(ms, rest);
      }
    case _ =>
  }

  // Single unfoldings of the parser on an arbitrary token sequence.

  lemma ParseValueArr(ts: seq<Tok>, items: seq<Json>, r: seq<Tok>)
    requires |ts| > 1 && ts[0] == LBracket && ts[1] != RBracket
    requires ParseItems(ts[1..]) == Ok(Parsed(items, r))
    requires r != [] && r[0] == RBracket
    ensures ParseValue(ts) == Ok(Parsed(JArr(items), r[1..]))
  {
  }

  lemma ParseValueObj(ts: seq<Tok>, ms: seq<Member>, r: seq<Tok>)
    requires |ts| > 1 && ts[0] == LBrace && ts[1] != RBrace
    requires ParseMembers(ts[1..]) == Ok(Parsed(ms, r))
    requires r != [] && r[0] == RBrace
    ensures ParseValue(ts) == Ok(Parsed(JObj(Normalize(ms)), r[1..]))
  {
  }

  lemma ParseItemsLast(ts: seq<Tok>, v: Json, r: seq<Tok>)
    requires ParseValue(ts) == Ok(Parsed(v, r))
    requires r != [] && r[0] != Comma
    ensures ParseItems(ts) == Ok(Parsed([v], r))
  {
  }

  lemma ParseItemsCons(ts: seq<Tok>, v: Json, r: seq<Tok>, more: seq<Json>, r2: seq<Tok>)
    requires ParseValue(ts) == Ok(Parsed(v, r))
    requires r != [] && r[0] == Comma
    requires ParseItems(r[1..]) == Ok(Parsed(more, r2))
    ensures ParseItems(ts) == Ok(Parsed([v] + more, r2))
  {
  }

  lemma ParseMembersLast(ts: seq<Tok>, k: string, v: Json, r: seq<Tok>)
    requires |ts| >= 2 && ts[0] == TStr(k) && ts[1] == Colon
    requires ParseValue(ts[2..]) == Ok(Parsed(v, r))
    requires r != [] && r[0] != Comma
    ensures ParseMembers(ts) == Ok(Parsed([Member(k, v)], r))
  {
  }

  lemma ParseMembersCons(ts: seq<Tok>, k: string, v: Json, r: seq<Tok>, more: seq<Member>, r2: seq<Tok>)
    requires |ts| >= 2 && ts[0] == TStr(k) && ts[1] == Colon
    requires ParseValue(ts[2..]) == Ok(Parsed(v, r))
    requires r != [] && r[0] == Comma
    requires ParseMembers(r[1..]) == Ok(Parsed(more, r2))
    ensures ParseMembers(ts) == Ok(Parsed([Member(k, v)] + more, r2))
  {
  }

  lemma {:induction false} ParseDumpArr(items: seq<Json>, rest: seq<Tok>)
    requires items != []
    requires ItemsWellFormed(items)
    ensures ParseValue(Dump(JArr(items)) + rest) == Ok(Parsed(JArr(items), rest))
    decreases items, 2
  {
    var ts := Dump(JArr(items)) + rest;
    var after := [RBracket] + rest;
    ParseDumpItems(items, after);
    assert ts == [LBracket] + (DumpItems(items) + after);
    assert ts[1..] == DumpItems(items) + after;
    assert ts[1] != RBracket by {
      DumpHead(items[0]);
      DumpItemsHead(items);
    }
    assert after[1..] == rest;
    ParseValueArr(ts, items, after);
  }

  lemma {:induction false} ParseDumpObj(ms: seq<Member>, rest: seq<Tok>)
    requires ms != []
    requires Distinct(Keys(ms)) && MembersWellFormed(ms)
    ensures ParseValue(Dump(JObj(ms)) + rest) == Ok(Parsed(JObj(ms), rest))
    decreases ms, 2
  {
    var ts := Dump(JObj(ms)) + rest;
    var after := [RBrace] + rest;
    assert |ts| > 1 && ts[0] == LBrace && ts[1] != RBrace && ParseMembers(ts[1..]) == Ok(Parsed(ms, after)) by {
      assert ts == [LBrace] + (DumpMembers(ms) + after);
      assert DumpMembers(ms)[0] == TStr(ms[0].key);
      assert ts[1..] == DumpMembers(ms) + after;
      ParseDumpMembers(ms, after);
    }
    NormalizeDistinct(ms);
    assert after[1..] == rest;
    ParseValueObj(ts, ms, after);
  }

  /** A dumped value never starts with a closing bracket or a comma. */
  lemma DumpHead(j: Json)
    ensures Dump(j)[0] != RBracket && Dump(j)[0] != RBrace && Dump(j)[0] != Comma
  {
  }

  lemma DumpItemsHead(items: seq<Json>)
    requires items != []
    ensures |DumpItems(items)| > 0 && DumpItems(items)[0] == Dump(items[0])[0]
  {
  }

  lemma {:induction false} ParseDumpItems(items: seq<Json>, rest: seq<Tok>)
    requires items != []
    requires ItemsWellFormed(items)
    requires rest != [] && rest[0] != Comma
    ensures ParseItems(DumpItems(items) + rest) == Ok(Parsed(items, rest))
    decreases items, 1
  {
    if |items| == 1 {
      ParseDumpLastItem(items, rest);
    } else {
      ParseDumpMoreItems(items, rest);
    }
  }

  lemma {:induction false} ParseDumpLastItem(items: seq<Json>, rest: seq<Tok>)
    requires |items| == 1
    requires ItemsWellFormed(items)
    requires rest != [] && rest[0] != Comma
    ensures ParseItems(DumpItems(items) + rest) == Ok(Parsed(items, rest))
    decreases items, 0
  {
    assert WellFormed(items[0]);
    ParseDump(items[0], rest);
    assert DumpItems(items) == Dump(items[0]);
    ParseItemsLast(DumpItems(items) + rest, items[0], rest);
    assert [items[0]] == items;
  }

  lemma {:induction false} ParseDumpMoreItems(items: seq<Json>, rest: seq<Tok>)
    requires |items| > 1
    requires ItemsWellFormed(items)
    requires rest != [] && rest[0] != Comma
    ensures ParseItems(DumpItems(items) + rest) == Ok(Parsed(items, rest))
    decreases items, 0
  {
    var tail := items[1..];
    var after := [Comma] + (DumpItems(tail) + rest);
    var ts := DumpItems(items) + rest;
    DumpItemsSplit(items, rest);
    ParseDump(items[0], after);
    ItemsWellFormedTail(items);
    ParseDumpItems(tail, rest);
    assert after[1..] == DumpItems(tail) + rest;
    ParseItemsCons(ts, items[0], after, tail, rest);
    assert [items[0]] + tail == items;
  }

  /** Two or more items dump as the first item, a comma and the others. */
  lemma DumpItemsSplit(items: seq<Json>, rest: seq<Tok>)
    requires |items| > 1
    ensures DumpItems(items) + rest == Dump(items[0]) + ([Comma] + (DumpItems(items[1..]) + rest))
  {
  }

  lemma ItemsWellFormedTail(items: seq<Json>)
    requires items != [] && ItemsWellFormed(items)
    ensures WellFormed(items[0]) && ItemsWellFormed(items[1..])
  {
    forall i | 0 <= i < |items[1..]|
      ensures WellFormed(items[1..][i])
    {
      assert items[1..][i] == items[i + 1];
    }
  }

  lemma {:induction false} ParseDumpMembers(ms: seq<Member>, rest: seq<Tok>)
    requires ms != []
    requires MembersWellFormed(ms)
    requires rest != [] && rest[0] != Comma
    ensures ParseMembers(DumpMembers(ms) + rest) == Ok(Parsed(ms, rest))
    decreases ms, 1
  {
    if |ms| == 1 {
      ParseDumpLastMember(ms, rest);
    } else {
      ParseDumpMoreMembers(ms, rest);
    }
  }

  lemma {:induction false} ParseDumpLastMember(ms: seq<Member>, rest: seq<Tok>)
    requires |ms| == 1
    requires MembersWellFormed(ms)
    requires rest != [] && rest[0] != Comma
    ensures ParseMembers(DumpMembers(ms) + rest) == Ok(Parsed(ms, rest))
    decreases ms, 0
  {
    var m := ms[0];
    var ts := DumpMembers(ms) + rest;
    assert ts == [TStr(m.key), Colon] + (Dump(m.value) + rest);
    ParseDumpMember(m, rest);
    ParseMembersLast(ts, m.key, m.value, rest);
    assert [Member(m.key, m.value)] == ms;
  }

  lemma {:induction false} ParseDumpMoreMembers(ms: seq<Member>, rest: seq<Tok>)
    requires |ms| > 1
    requires MembersWellFormed(ms)
    requires rest != [] && rest[0] != Comma
    ensures ParseMembers(DumpMembers(ms) + rest) == Ok(Parsed(ms, rest))
    decreases ms, 0
  {
    var m := ms[0];
    var ts := DumpMembers(ms) + rest;
    var tail := ms[1..];
    var after := [Comma] + (DumpMembers(tail) + rest);
    DumpMembersSplit(ms, rest);
    ParseDumpMember(m, after);
    MembersWellFormedTail(ms);
    ParseDumpMembers(tail, rest);
    assert after[1..] == DumpMembers(tail) + rest;
    ParseMembersCons(ts, m.key, m.value, after, tail, rest);
    assert [Member(m.key, m.value)] + tail == ms;
  }

  /** Two or more members dump as the first member, a comma and the others. */
  lemma DumpMembersSplit(ms: seq<Member>, rest: seq<Tok>)
    requires |ms| > 1
    ensures DumpMembers(ms) + rest == [TStr(ms[0].key), Colon] + (Dump(ms[0].value) + ([Comma] + (DumpMembers(ms[1..]) + rest)))
  {
  }

  /** The value of one dumped member parses back. */
  lemma {:induction false} ParseDumpMember(m: Member, after: seq<Tok>)
    requires WellFormed(m.value)
    ensures ParseValue(([TStr(m.key), Colon] + (Dump(m.value) + after))[2..]) == Ok(Parsed(m.value, after))
    decreases m.value, 3
  {
    assert ([TStr(m.key), Colon] + (Dump(m.value) + after))[2..] == Dump(m.value) + after;
    ParseDump(m.value, after);
  }

  lemma {:induction false} MembersWellFormedTail(ms: seq<Member>)
    requires ms != [] && MembersWellFormed(ms)
    ensures MembersWellFormed(ms[1..])
  {
    forall i | 0 <= i < |ms| - 1
      ensures WellFormed(ms[1..][i].value)
    {
      assert ms[1..][i] == ms[i + 1];
    }
  }

  /** `json.loads(json.dumps(v)) == v` for every value `json.loads` can
      produce: this is why the editors' `json.loads(json.dumps(x))` is a deep
      copy. */
  lemma {:induction false} LoadsDump(j: Json)
    requires WellFormed(j)
    ensures Loads(Dump(j)) == Ok(j)
  {
    ParseDump(j, []);
    assert Dump(j) + [] == Dump(j);
  }

  // --------------------------------------------------- Python value access

  /** `d.get(k, default)`: only a dictionary has `get`. */
  function Get(d: Json, k: string, default: Json): (r: Result<Json>)
    ensures r.Ok? <==> d.JObj?
    ensures d.JObj? && k in Keys(d.members) ==> r == Ok(Lookup(d.members, k).value)
    ensures d.JObj? && k !in Keys(d.members) ==> r == Ok(default)
  {
    if !d.JObj? then Err(AttributeError)
    else match Lookup(d.members, k)
      case Some(v) => Ok(v)
      case None => Ok(default)
  }

  /** `d[k]` with a string key. */
  function Index(d: Json, k: string): (r: Result<Json>)
    ensures r.Ok? <==> d.JObj? && k in Keys(d.members)
    ensures r.Ok? ==> r.value == Lookup(d.members, k).value
    ensures d.JObj? && r.Err? ==> r.error == KeyError
    ensures !d.JObj? ==> r == Err(TypeError)
  {
    if !d.JObj? then Err(TypeError)
    else match Lookup(d.members, k)
      case Some(v) => Ok(v)
      case None => Err(KeyError)
  }

  /** `d[k] = v` with a string key. */
  function Store(d: Json, k: string, v: Json): (r: Result<Json>)
    ensures r.Ok? <==> d.JObj?
    ensures r.Ok? ==> r.value == JObj(Assign(d.members, k, v))
  {
    if !d.JObj? then Err(TypeError) else Ok(JObj(Assign(d.members, k, v)))
  }

  /** `d.setdefault(k, {})`: the value under `k`, inserting an empty
      dictionary first when it is missing. */
  function SetDefault(d: Json, k: string): (r: Result<(Json, Json)>)
    ensures r.Ok? <==> d.JObj?
    ensures r.Ok? && k in Keys(d.members) ==> r.value == (d, Lookup(d.members, k).value)
    ensures r.Ok? && k !in Keys(d.members) ==> r.value == (JObj(d.members + [Member(k, JObj([]))]), JObj([]))
  {
    if !d.JObj? then Err(AttributeError)
    else match Lookup(d.members, k)
      case Some(v) => Ok((d, v))
      case None =>
        AssignFresh(d.members, k, JObj([]));
        Ok((JObj(d.members + [Member(k, JObj([]))]), JObj([])))
  }

  /** `list(d.keys())`. */
  function KeyList(d: Json): (r: Result<seq<string>>)
    ensures r.Ok? <==> d.JObj?
    ensures r.Ok? ==> r.value == Keys(d.members)
  {
    if d.JObj? then Ok(Keys(d.members)) else Err(AttributeError)
  }

  /** Does `s` occur in `t`? */
  predicate IsSubstring(s: string, t: string)
    decreases |t|
  {
    if |s| > |t| then false
    else t[..|s|] == s || (t != [] && IsSubstring(s, t[1..]))
  }

  /** `k in x`: keys of a dictionary, elements of a list, substrings of a
      string; anything else is not a container. */
  function Contains(x: Json, k: string): (r: Result<bool>)
    ensures x.JObj? ==> r == Ok(k in Keys(x.members))
    ensures x.JArr? ==> r == Ok(JStr(k) in x.items)
    ensures (x.JNull? || x.JBool? || x.JNum?) ==> r == Err(TypeError)
  {
    match x
    case JObj(ms) => Ok(k in Keys(ms))
    case JArr(items) => Ok(JStr(k) in items)
    case JStr(s) => Ok(IsSubstring(k, s))
    case _ => Err(TypeError)
  }

  /** `for x in v`: items of a list, keys of a dictionary, characters of a
      string. */
  function Iterate(v: Json): (r: Result<seq<Json>>)
    ensures v.JArr? ==> r == Ok(v.items)
    ensures (v.JNull? || v.JBool? || v.JNum?) ==> r == Err(TypeError)
  {
    match v
    case JArr(items) => Ok(items)
    case JObj(ms) => Ok(seq(|ms|, i requires 0 <= i < |ms| => JStr(ms[i].key)))
    case JStr(s) => Ok(seq(|s|, i requires 0 <= i < |s| => JStr([s[i]])))
    case _ => Err(TypeError)
  }

  /** A list of numbers, as `json.dumps` writes a Python list of numbers. */
  function Numbers(xs: seq<real>): (j: Json)
    ensures j.JArr? && |j.items| == |xs|
    ensures forall i :: 0 <= i < |xs| ==> j.items[i] == JNum(xs[i])
  {
    JArr(seq(|xs|, i requires 0 <= i < |xs| => JNum(xs[i])))
  }

  /** `del d[k]`. */
  function Delete(d: Json, k: string): (r: Result<Json>)
    ensures r.Ok? <==> d.JObj? && k in Keys(d.members)
    ensures r.Ok? ==> r.value == JObj(Remove(d.members, k))
  {
    if !d.JObj? then Err(TypeError)
    else if k in Keys(d.members) then Ok(JObj(Remove(d.members, k)))
    else Err(KeyError)
  }

  /** `xs.append(v)`: only a list has `append`. */
  function Append(xs: Json, v: Json): (r: Result<Json>)
    ensures r.Ok? <==> xs.JArr?
    ensures r.Ok? ==> r.value == JArr(xs.items + [v])
  {
    if xs.JArr? then Ok(JArr(xs.items + [v])) else Err(AttributeError)
  }

  /** `x + d` for a float `d`: numbers and booleans add, anything else raises
      TypeError. */
  function AddNumber(x: Json, d: real): (r: Result<real>)
    ensures x.JNum? ==> r == Ok(x.x + d)
    ensures (x.JNull? || x.JStr? || x.JArr? || x.JObj?) ==> r == Err(TypeError)
  {
    match x
    case JNum(v) => Ok(v + d)
    case JBool(b) => Ok((if b then 1.0 else 0.0) + d)
    case _ => Err(TypeError)
  }

  // ------------------------------------------------------------ paths

  /** One subscript of a chain such as `x["a"][0]["b"]`. */
  datatype Step = Key(name: string) | Pos(index: int)

  /** `x[s]`: a string key needs a dictionary, an integer position a list or
      a string; a dictionary has no integer keys. */
  function IndexStep(j: Json, s: Step): (r: Result<Json>)
    ensures s.Key? ==> r == Index(j, s.name)
    ensures s.Pos? && j.JArr? ==> r == PyIndex(j.items, s.index)
  {
    match s
    case Key(k) => Index(j, k)
    case Pos(i) =>
      match j
      case JArr(items) => PyIndex(items, i)
      case JStr(str) => var c :- PyIndex(str, i); Ok(JStr([c]))
      case JObj(_) => Err(KeyError)
      case _ => Err(TypeError)
  }

  /** The container after its element at `s` was replaced by `c`, for an
      element that `IndexStep` found. */
  function Replace(j: Json, s: Step, c: Json): Json
  {
    match s
    case Key(k) => if j.JObj? then JObj(Assign(j.members, k, c)) else j
    case Pos(i) =>
      if j.JArr? && PyPosition(|j.items|, i).Some? then JArr(j.items[PyPosition(|j.items|, i).value := c]) else j
  }

  /** `x[s0][s1]...`. */
  function GetPath(j: Json, path: seq<Step>): Result<Json>
    decreases |path|
  {
    if path == [] then Ok(j)
    else
      var c :- IndexStep(j, path[0]);
      GetPath(c, path[1..])
  }

  /** `x[a]`. */
  lemma GetPathOne(j: Json, a: string)
    ensures GetPath(j, [Key(a)]) == Index(j, a)
  {
    assert [Key(a)][1..] == [];
  }

  /** `x[a][b]`. */
  lemma {:induction false} GetPathKeys(j: Json, a: string, b: string)
    ensures GetPath(j, [Key(a), Key(b)]) ==
      (if Index(j, a).Err? then Index(j, a) else Index(Index(j, a).value, b))
  {
    assert [Key(a), Key(b)][1..] == [Key(b)];
    assert [Key(b)][1..] == [];
    if Index(j, a).Ok? {
      var c := Index(j, a).value;
      assert GetPath(j, [Key(a), Key(b)]) == GetPath(c, [Key(b)]);
      if Index(c, b).Ok? {
        assert GetPath(c, [Key(b)]) == GetPath(Index(c, b).value, []);
      }
    }
  }

  /** Following `p + q` is following `p`, then `q`. */
  lemma {:induction false} GetPathAppend(j: Json, p: seq<Step>, q: seq<Step>)
    ensures GetPath(j, p + q) ==
      (if GetPath(j, p).Err? then GetPath(j, p) else GetPath(GetPath(j, p).value, q))
    decreases |p|
  {
    if p == [] {
      assert p + q == q;
    } else {
      assert (p + q)[0] == p[0];
      assert (p + q)[1..] == p[1..] + q;
      if IndexStep(j, p[0]).Ok? {
        GetPathAppend(IndexStep(j, p[0]).value, p[1..], q);
      }
    }
  }

  /** `x[s0]...[k] = v`: the chain is evaluated left to right, then the last
      dictionary is assigned to; the decoded values share no objects, so the
      in-place update is the copy rebuilt along the chain. */
  function SetPath(j: Json, path: seq<Step>, v: Json): Result<Json>
    requires path != [] && path[|path| - 1].Key?
    decreases |path|
  {
    if |path| == 1 then Store(j, path[0].name, v)
    else
      var c :- IndexStep(j, path[0]);
      var c2 :- SetPath(c, path[1..], v);
      Ok(Replace(j, path[0], c2))
  }

  lemma {:induction false} SetPathOnString(str: string, path: seq<Step>, v: Json)
    requires path != [] && path[|path| - 1].Key?
    ensures SetPath(JStr(str), path, v).Err?
    decreases |path|
  {
    if |path| > 1 && path[0].Pos? {
      var c := IndexStep(JStr(str), path[0]);
      if c.Ok? {
        assert c.value.JStr?;
        SetPathOnString(c.value.s, path[1..], v);
      }
    }
  }

  lemma {:induction false} IndexReplace(j: Json, s: Step, c: Json)
    requires IndexStep(j, s).Ok? && !j.JStr?
    ensures IndexStep(Replace(j, s, c), s) == Ok(c)
  {
    match s
    case Key(k) => LookupAssign(j.members, k, c, k);
    case Pos(i) =>
  }

  /** After `x[path] = v`, reading `x[path]` gives `v`. */
  lemma {:induction false} GetSetSame(j: Json, path: seq<Step>, v: Json)
    requires path != [] && path[|path| - 1].Key?
    requires SetPath(j, path, v).Ok?
    ensures GetPath(SetPath(j, path, v).value, path) == Ok(v)
    decreases |path|
  {
    if |path| == 1 {
      LookupAssign(j.members, path[0].name, v, path[0].name);
      assert path[1..] == [];
    } else {
      var c := IndexStep(j, path[0]).value;
      if j.JStr? {
        SetPathOnString(j.s, path, v);
      }
      var c2 := SetPath(c, path[1..], v).value;
      IndexReplace(j, path[0], c2);
      GetSetSame(c, path[1..], v);
    }
  }

  /** Two chains that agree up to position `i` and name different keys
      there. */
  predicate Diverge(p: seq<Step>, q: seq<Step>, i: nat)
  {
    i < |p| && i < |q| && p[..i] == q[..i] && p[i].Key? && q[i].Key? && p[i].name != q[i].name
  }

  /** Assigning along one chain leaves what any diverging chain reads. */
  lemma {:induction false} GetSetOther(j: Json, p: seq<Step>, q: seq<Step>, i: nat, v: Json)
    requires p != [] && p[|p| - 1].Key?
    requires SetPath(j, p, v).Ok?
    requires Diverge(p, q, i)
    ensures GetPath(SetPath(j, p, v).value, q) == GetPath(j, q)
    decreases i
  {
    if i == 0 {
      GetSetOtherTop(j, p, q, v);
    } else {
      GetSetDescend(j, p, q, i, v);
      GetSetOther(IndexStep(j, p[0]).value, p[1..], q[1..], i - 1, v);
    }
  }

  /** Chains that part at their first key. */
  lemma GetSetOtherTop(j: Json, p: seq<Step>, q: seq<Step>, v: Json)
    requires p != [] && p[|p| - 1].Key?
    requires SetPath(j, p, v).Ok?
    requires Diverge(p, q, 0)
    ensures GetPath(SetPath(j, p, v).value, q) == GetPath(j, q)
  {
    var r := SetPath(j, p, v).value;
    if |p| == 1 {
      LookupAssign(j.members, p[0].name, v, q[0].name);
    } else {
      var c2 := SetPath(IndexStep(j, p[0]).value, p[1..], v).value;
      LookupAssign(j.members, p[0].name, c2, q[0].name);
    }
    assert IndexStep(r, q[0]) == IndexStep(j, q[0]);
  }

  /** Chains that share their first step: both reads go through the same
      element, and the rest of the chains still part. */
  lemma GetSetDescend(j: Json, p: seq<Step>, q: seq<Step>, i: nat, v: Json)
    requires p != [] && p[|p| - 1].Key?
    requires SetPath(j, p, v).Ok?
    requires Diverge(p, q, i) && i > 0
    ensures IndexStep(j, p[0]).Ok? && SetPath(IndexStep(j, p[0]).value, p[1..], v).Ok?
    ensures Diverge(p[1..], q[1..], i - 1)
    ensures GetPath(SetPath(j, p, v).value, q) == GetPath(SetPath(IndexStep(j, p[0]).value, p[1..], v).value, q[1..])
    ensures GetPath(j, q) == GetPath(IndexStep(j, p[0]).value, q[1..])
  {
    assert p[0] == p[..i][0] == q[..i][0] == q[0];
    var c := IndexStep(j, p[0]).value;
    if j.JStr? {
      SetPathOnString(j.s, p, v);
    }
    var c2 := SetPath(c, p[1..], v).value;
    IndexReplace(j, p[0], c2);
    assert p[1..][..i - 1] == p[..i][1..];
    assert q[1..][..i - 1] == q[..i][1..];
  }

  lemma {:induction false} IndexStepWellFormed(j: Json, s: Step)
    requires WellFormed(j) && IndexStep(j, s).Ok?
    ensures WellFormed(IndexStep(j, s).value)
  {
    if j.JObj? && s.Key? {
      LookupWellFormed(j.members, s.name);
    } else if j.JArr? {
      var i := s.index;
      if i < 0 {
        assert WellFormed(j.items[|j.items| + i]);
      } else {
        assert WellFormed(j.items[i]);
      }
    }
  }

  lemma {:induction false} ReplaceWellFormed(j: Json, s: Step, c: Json)
    requires WellFormed(j) && WellFormed(c)
    ensures WellFormed(Replace(j, s, c))
  {
    if j.JObj? && s.Key? {
      AssignDistinct(j.members, s.name, c);
      AssignWellFormed(j.members, s.name, c);
    } else if j.JArr? && s.Pos? && PyPosition(|j.items|, s.index).Some? {
      var items := j.items[PyPosition(|j.items|, s.index).value := c];
      forall i | 0 <= i < |items|
        ensures WellFormed(items[i])
      {
        if i != PyPosition(|j.items|, s.index).value {
          assert items[i] == j.items[i];
        }
      }
    }
  }

  /** The edits keep every dictionary free of duplicate keys, so the dumped
      text reads back as the edited value. */
  lemma {:induction false} SetPathWellFormed(j: Json, path: seq<Step>, v: Json)
    requires path != [] && path[|path| - 1].Key?
    requires WellFormed(j) && WellFormed(v)
    requires SetPath(j, path, v).Ok?
    ensures WellFormed(SetPath(j, path, v).value)
    decreases |path|
  {
    if |path| == 1 {
      AssignDistinct(j.members, path[0].name, v);
      AssignWellFormed(j.members, path[0].name, v);
    } else {
      var c := IndexStep(j, path[0]).value;
      IndexStepWellFormed(j, path[0]);
      SetPathWellFormed(c, path[1..], v);
      ReplaceWellFormed(j, path[0], SetPath(c, path[1..], v).value);
    }
  }
}

/**
 * The attribute scan shared by `enum_descriptor_derive` (attribute
 * `arg_description`) and `impl_function_call_response` (attribute
 * `func_description`) in openai-func-enums-macros/src/lib.rs.
 *
 * Starting from description "" and tokens 0, every attribute with the
 * scanned name is read item by item (`description = "..."`, `tokens = N`);
 * a later item overwrites an earlier one.  `parse_nested_meta` gives up on the
 * rest of an attribute at the first item it cannot get past: a known key
 * without `= value`, a value that is not a literal, a `tokens` integer that
 * `base10_parse::<usize>` rejects (negative, or above the largest `usize`),
 * or an unknown key that carries a value.  What it set before giving up
 * stays set.
 */
module Attributes {

  /** What follows the key of a nested meta item. */
  datatype MetaValue =
    | NoValue              // a bare key
    | StrLit(text: string) // `= "text"`
    | IntLit(n: int)       // `= 42`, `= -5`
    | OtherLit             // `= 1.5`, `= true`, `= b'x'`, ...
    | NotLiteral           // `= some_ident`, `(...)`

  datatype MetaItem = MetaItem(key: string, value: MetaValue)

  /** `#[path(items...)]` */
  datatype Attribute = Attribute(path: string, items: seq<MetaItem>)

  /** The two variables the scan updates. */
  datatype Scanned = Scanned(description: string, tokens: nat)

  const Defaults: Scanned := Scanned("", 0)

  /** The largest `usize`: `base10_parse::<usize>` fails on an integer literal outside `0..=UsizeMax`. */
  const UsizeMax: nat := 0xFFFF_FFFF_FFFF_FFFF

  /** What reading one item does. */
  datatype Effect = SetDescription(text: string) | SetTokens(count: nat) | Skip | Stop

  function ItemEffect(item: MetaItem): (e: Effect)
    ensures e.SetDescription? <==> item.key == "description" && item.value.StrLit?
    ensures e.SetDescription? ==> e.text == item.value.text
    ensures e.SetTokens? <==> item.key == "tokens" && item.value.IntLit? && 0 <= item.value.n <= UsizeMax
    ensures item.key == "tokens" && item.value.IntLit? && !(0 <= item.value.n <= UsizeMax) ==> e.Stop?
    ensures e.SetTokens? ==> e.count == item.value.n
  {
    if item.key == "description" then
      match item.value
      case StrLit(s) => SetDescription(s)
      case IntLit(_) => Skip
      case OtherLit => Skip
      case _ => Stop
    else if item.key == "tokens" then
      match item.value
      case IntLit(n) => if 0 <= n <= UsizeMax then SetTokens(n) else Stop
      case StrLit(_) => Skip
      case OtherLit => Skip
      case _ => Stop
    else
      match item.value
      case NoValue => Skip
      case _ => Stop
  }

  function Apply(st: Scanned, e: Effect): Scanned
  {
    match e
    case SetDescription(s) => st.(description := s)
    case SetTokens(n) => st.(tokens := n)
    case _ => st
  }

  /** The items of one attribute, read until the first one the parser cannot get past. */
  function ApplyItems(st: Scanned, items: seq<MetaItem>): Scanned
    decreases items
  {
    if items == [] then st
    else if ItemEffect(items[0]).Stop? then st
    else ApplyItems(Apply(st, ItemEffect(items[0])), items[1..])
  }

  /** All attributes, in order; only those named `name` are read. */
  function ScanFrom(st: Scanned, attrs: seq<Attribute>, name: string): Scanned
    decreases attrs
  {
    if attrs == [] then st
    else
      var st' := if attrs[0].path == name then ApplyItems(st, attrs[0].items) else st;
      ScanFrom(st', attrs[1..], name)
  }

  function Scan(attrs: seq<Attribute>, name: string): Scanned
  {
    ScanFrom(Defaults, attrs, name)
  }

  /** The loops of the derive macros over `attrs` and over each attribute's nested items. */
  method ScanAttributes(attrs: seq<Attribute>, name: string) returns (description: string, descTokens: nat)
    ensures Scanned(description, descTokens) == Scan(attrs, name)
  {
    description, descTokens := "", 0;
    var i := 0;
    while i < |attrs|
      invariant 0 <= i <= |attrs|
      invariant ScanFrom(Scanned(description, descTokens), attrs[i..], name) == Scan(attrs, name)
    {
      var attr := attrs[i];
      assert attrs[i..][1..] == attrs[i + 1..];
      if attr.path == name {
        var j := 0;
        ghost var start := Scanned(description, descTokens);
        while j < |attr.items|
          invariant 0 <= j <= |attr.items|
          invariant ApplyItems(Scanned(description, descTokens), attr.items[j..]) == ApplyItems(start, attr.items)
        {
          assert attr.items[j..][1..] == attr.items[j + 1..];
          var item := attr.items[j];
          match ItemEffect(item) {
            case SetDescription(s) => description := s;
            case SetTokens(n) => descTokens := n;
            case Skip =>
            case Stop => break;
          }
          j := j + 1;
        }
      }
      i := i + 1;
    }
  }

  // ---------------------------------------------------------------------
  // A reference account: the items that take effect, and "last wins"
  // ---------------------------------------------------------------------

  /** The items of one attribute that are read: those before the first one that stops the parser. */
  function Processed(items: seq<MetaItem>): (p: seq<MetaItem>)
    ensures forall k :: 0 <= k < |p| ==> !ItemEffect(p[k]).Stop?
  {
    if items == [] || ItemEffect(items[0]).Stop? then []
    else [items[0]] + Processed(items[1..])
  }

  /** Every item read by the scan, over all attributes named `name`, in order. */
  function Settings(attrs: seq<Attribute>, name: string): seq<MetaItem>
  {
    if attrs == [] then []
    else (if attrs[0].path == name then Processed(attrs[0].items) else []) + Settings(attrs[1..], name)
  }

  /** Applying items that never stop the parser. */
  function ApplyAll(st: Scanned, items: seq<MetaItem>): Scanned
    decreases items
  {
    if items == [] then st else ApplyAll(Apply(st, ItemEffect(items[0])), items[1..])
  }

  lemma {:induction false} ApplyAllAppend(st: Scanned, a: seq<MetaItem>, b: seq<MetaItem>)
    ensures ApplyAll(st, a + b) == ApplyAll(ApplyAll(st, a), b)
    decreases a
  {
    if a != [] {
      assert (a + b)[1..] == a[1..] + b;
      ApplyAllAppend(Apply(st, ItemEffect(a[0])), a[1..], b);
    } else {
      assert a + b == b;
    }
  }

  lemma {:induction false} ApplyItemsIsProcessed(st: Scanned, items: seq<MetaItem>)
    ensures ApplyItems(st, items) == ApplyAll(st, Processed(items))
    decreases items
  {
    if items != [] && !ItemEffect(items[0]).Stop? {
      ApplyItemsIsProcessed(Apply(st, ItemEffect(items[0])), items[1..]);
      assert ([items[0]] + Processed(items[1..]))[1..] == Processed(items[1..]);
    }
  }

  /** The scan applies exactly the settings, in order. */
  lemma {:induction false} ScanIsSettings(st: Scanned, attrs: seq<Attribute>, name: string)
    ensures ScanFrom(st, attrs, name) == ApplyAll(st, Settings(attrs, name))
    decreases attrs
  {
    if attrs != [] {
      var here := if attrs[0].path == name then Processed(attrs[0].items) else [];
      var st' := if attrs[0].path == name then ApplyItems(st, attrs[0].items) else st;
      if attrs[0].path == name {
        ApplyItemsIsProcessed(st, attrs[0].items);
      }
      assert st' == ApplyAll(st, here);
      ScanIsSettings(st', attrs[1..], name);
      ApplyAllAppend(st, here, Settings(attrs[1..], name));
    }
  }

  predicate SetsDescription(item: MetaItem) { ItemEffect(item).SetDescription? }

  predicate SetsTokens(item: MetaItem) { ItemEffect(item).SetTokens? }

  /** The description after items that do not stop: the last setter's text, or the starting one. */
  lemma {:induction false} DescriptionLastWins(st: Scanned, items: seq<MetaItem>)
    ensures (forall k :: 0 <= k < |items| ==> !SetsDescription(items[k])) ==> ApplyAll(st, items).description == st.description
    ensures forall k :: 0 <= k < |items| && SetsDescription(items[k])
                        && (forall l :: k < l < |items| ==> !SetsDescription(items[l]))
                        ==> ApplyAll(st, items).description == items[k].value.text
    decreases items
  {
    if items != [] {
      var st' := Apply(st, ItemEffect(items[0]));
      var rest := items[1..];
      assert ApplyAll(st, items) == ApplyAll(st', rest);
      DescriptionLastWins(st', rest);
      assert forall l :: 0 < l < |items| ==> items[l] == rest[l - 1];
      forall k | 0 <= k < |items| && SetsDescription(items[k]) && (forall l :: k < l < |items| ==> !SetsDescription(items[l]))
        ensures ApplyAll(st, items).description == items[k].value.text
      {
        if k == 0 {
          assert forall l :: 0 <= l < |rest| ==> !SetsDescription(rest[l]) by {
            forall l | 0 <= l < |rest| ensures !SetsDescription(rest[l]) {
              assert rest[l] == items[l + 1];
            }
          }
          assert st'.description == items[0].value.text;
        } else {
          assert rest[k - 1] == items[k];
          assert forall l :: k - 1 < l < |rest| ==> !SetsDescription(rest[l]) by {
            forall l | k - 1 < l < |rest| ensures !SetsDescription(rest[l]) {
              assert rest[l] == items[l + 1];
            }
          }
        }
      }
    }
  }

  /** The tokens after items that do not stop: the last setter's count, or the starting one. */
  lemma {:induction false} TokensLastWins(st: Scanned, items: seq<MetaItem>)
    ensures (forall k :: 0 <= k < |items| ==> !SetsTokens(items[k])) ==> ApplyAll(st, items).tokens == st.tokens
    ensures forall k :: 0 <= k < |items| && SetsTokens(items[k])
                        && (forall l :: k < l < |items| ==> !SetsTokens(items[l]))
                        ==> ApplyAll(st, items).tokens == items[k].value.n
    decreases items
  {
    if items != [] {
      var st' := Apply(st, ItemEffect(items[0]));
      var rest := items[1..];
      assert ApplyAll(st, items) == ApplyAll(st', rest);
      TokensLastWins(st', rest);
      assert forall l :: 0 < l < |items| ==> items[l] == rest[l - 1];
      forall k | 0 <= k < |items| && SetsTokens(items[k]) && (forall l :: k < l < |items| ==> !SetsTokens(items[l]))
        ensures ApplyAll(st, items).tokens == items[k].value.n
      {
        if k == 0 {
          assert forall l :: 0 <= l < |rest| ==> !SetsTokens(rest[l]) by {
            forall l | 0 <= l < |rest| ensures !SetsTokens(rest[l]) {
              assert rest[l] == items[l + 1];
            }
          }
          assert st'.tokens == items[0].value.n;
        } else {
          assert rest[k - 1] == items[k];
          assert forall l :: k - 1 < l < |rest| ==> !SetsTokens(rest[l]) by {
            forall l | k - 1 < l < |rest| ensures !SetsTokens(rest[l]) {
              assert rest[l] == items[l + 1];
            }
          }
        }
      }
    }
  }

  /**
   * "Last wins": the description is the text of the last `description =
   * "..."` item that was read, or "" when none was; the tokens the value of
   * the last `tokens = N` item read, or 0.
   */
  lemma ScanLastWins(attrs: seq<Attribute>, name: string)
    ensures var items := Settings(attrs, name);
      && ((forall k :: 0 <= k < |items| ==> !SetsDescription(items[k])) ==> Scan(attrs, name).description == "")
      && ((forall k :: 0 <= k < |items| ==> !SetsTokens(items[k])) ==> Scan(attrs, name).tokens == 0)
      && (forall k :: 0 <= k < |items| && SetsDescription(items[k])
                      && (forall l :: k < l < |items| ==> !SetsDescription(items[l]))
                      ==> Scan(attrs, name).description == items[k].value.text)
      && (forall k :: 0 <= k < |items| && SetsTokens(items[k])
                      && (forall l :: k < l < |items| ==> !SetsTokens(items[l]))
                      ==> Scan(attrs, name).tokens == items[k].value.n)
  {
    var items := Settings(attrs, name);
    ScanIsSettings(Defaults, attrs, name);
    DescriptionLastWins(Defaults, items);
    TokensLastWins(Defaults, items);
    assert Scan(attrs, name) == ApplyAll(Defaults, items);
  }

  /** With no attribute of the scanned name, the defaults stand: description "" and tokens 0. */
  lemma {:induction false} ScanDefaults(attrs: seq<Attribute>, name: string, st: Scanned)
    requires forall i :: 0 <= i < |attrs| ==> attrs[i].path != name
    ensures ScanFrom(st, attrs, name) == st
  {
    if attrs != [] {
      ScanDefaults(attrs[1..], name, st);
    }
  }

  /** A later attribute overwrites what an earlier one set. */
  lemma LaterAttributeOverwrites(attrs: seq<Attribute>, name: string, text: string, n: nat)
    requires n <= UsizeMax
    ensures Scan(attrs + [Attribute(name, [MetaItem("description", StrLit(text)), MetaItem("tokens", IntLit(n))])], name)
            == Scanned(text, n)
  {
    var d := MetaItem("description", StrLit(text));
    var t := MetaItem("tokens", IntLit(n));
    var last := Attribute(name, [d, t]);
    assert "description" != "tokens" by { assert "description"[0] != "tokens"[0]; }
    assert ItemEffect(d) == SetDescription(text);
    assert ItemEffect(t) == SetTokens(n);
    ScanAppend(Defaults, attrs, [last], name);
    var before := Scan(attrs, name);
    var mid := before.(description := text);
    calc {
      ScanFrom(before, [last], name);
      { assert [last][1..] == []; }
      ScanFrom(ApplyItems(before, [d, t]), [], name);
      ApplyItems(before, [d, t]);
      { assert [d, t][1..] == [t]; }
      ApplyItems(mid, [t]);
      { assert [t][1..] == []; }
      ApplyItems(mid.(tokens := n), []);
      Scanned(text, n);
    }
  }

  lemma {:induction false} ScanAppend(st: Scanned, a: seq<Attribute>, b: seq<Attribute>, name: string)
    ensures ScanFrom(st, a + b, name) == ScanFrom(ScanFrom(st, a, name), b, name)
    decreases a
  {
    if a != [] {
      assert (a + b)[1..] == a[1..] + b;
      var st' := if a[0].path == name then ApplyItems(st, a[0].items) else st;
      ScanAppend(st', a[1..], b, name);
    } else {
      assert a + b == b;
    }
  }
}

/** What `add` accepts and how it sorts its argument by type (indexq.py:74-94). */
module Items {

  /** A Python value that can sit in a list handed to `add`: a dict of document fields,
      or an object of some other class, numbered by `cls`. */
  datatype Value = DictValue(fields: map<string, string>) | OtherValue(cls: nat)

  /** `type(v)`: dict, or some other class. */
  datatype PyType = DictType | OtherType(cls: nat)

  function TypeOf(v: Value): PyType {
    match v
    case DictValue(_) => DictType
    case OtherValue(c) => OtherType(c)
  }

  /** The argument of `add`, by its exact type (`type(item) is ...`). Objects of any
      other class, including subclasses of list, dict or str, are `OtherItem`, with
      their truth value. */
  datatype Item =
    | NoneItem
    | ListItem(elems: seq<Value>)
    | DictItem(fields: map<string, string>)
    | StrItem(text: string)
    | OtherItem(cls: nat, truthy: bool)

  /** Python truthiness of the argument (`if item:`). */
  predicate Truthy(item: Item) {
    match item
    case NoneItem => false
    case ListItem(es) => es != []
    case DictItem(f) => |f| > 0
    case StrItem(s) => s != []
    case OtherItem(_, t) => t
  }

  /** `set([type(d) for d in item])`. */
  function ElementTypes(elems: seq<Value>): set<PyType> {
    set v | v in elems :: TypeOf(v)
  }

  /** The rejection test as written: more than one type, or dict not among them. On a
      non-empty list it rejects exactly the lists that hold something other than a
      dict; the empty list, which `add` never tests because it is falsy, fails it. */
  function FailsListCheck(elems: seq<Value>): (failed: bool)
    ensures elems != [] ==> (failed <==> !AllDicts(elems))
    ensures elems == [] ==> failed
  {
    var check := ElementTypes(elems);
    if elems == [] then
      assert check == {};
      |check| > 1 || DictType !in check
    else
      ListCheckRejectsNonDicts(elems);
      |check| > 1 || DictType !in check
  }

  /** The reference meaning: every element is a dict. */
  predicate AllDicts(elems: seq<Value>) {
    forall i :: 0 <= i < |elems| ==> elems[i].DictValue?
  }

  /** On a non-empty list the type set has more than one member, or lacks dict, exactly
      when some element is not a dict. */
  lemma ListCheckRejectsNonDicts(elems: seq<Value>)
    requires elems != []
    ensures (|ElementTypes(elems)| > 1 || DictType !in ElementTypes(elems)) <==> !AllDicts(elems)
  {
    var check := ElementTypes(elems);
    assert TypeOf(elems[0]) in check;
    if AllDicts(elems) {
      assert check == {DictType};
    } else {
      var i :| 0 <= i < |elems| && !elems[i].DictValue?;
      var t := TypeOf(elems[i]);
      assert t in check && t != DictType;
      if DictType in check {
        assert {DictType, t} <= check;
        assert |{DictType, t}| == 2;
        assert |check| >= 2 by {
          CardinalityOfSubset({DictType, t}, check);
        }
      }
    }
  }

  lemma CardinalityOfSubset<T>(a: set<T>, b: set<T>)
    requires a <= b
    ensures |a| <= |b|
  {
    assert b == a + (b - a);
  }

  /** Where `add` sends its argument. */
  datatype Dispatch =
    | Rejected                    // ValueError
    | Buffered(elems: seq<Value>) // handed to the buffer; [] when the item is falsy
    | Direct(text: string)        // written straight to a segment

  /** The type dispatch of `add` (indexq.py:80-94). */
  function Classify(item: Item): (d: Dispatch)
    ensures !Truthy(item) ==> d == Buffered([])
    ensures item.ListItem? && item.elems != [] ==>
              (d.Rejected? <==> !AllDicts(item.elems)) &&
              (!d.Rejected? ==> d == Buffered(item.elems))
    ensures item.DictItem? && Truthy(item) ==> d == Buffered([DictValue(item.fields)])
    ensures item.StrItem? && Truthy(item) ==> d == Direct(item.text)
    ensures item.OtherItem? && Truthy(item) ==> d == Rejected
    ensures d.Buffered? ==> AllDicts(d.elems)
    ensures d.Direct? ==> d.text != []
  {
    if !Truthy(item) then Buffered([])
    else match item
      case ListItem(es) =>
        ListCheckRejectsNonDicts(es);
        if FailsListCheck(es) then Rejected else Buffered(es)
      case DictItem(f) => Buffered([DictValue(f)])
      case StrItem(s) => Direct(s)
      case OtherItem(_, _) => Rejected
  }
}

/** `clean_for_json` (backend/main.py): the last step before a reply is
    serialised, replacing every NaN and infinity by `None`. */
module JsonCleaning {
  import opened JsonValue

  /** No NaN and no infinity anywhere in the value. */
  predicate IsClean(v: Json)
  {
    match v
    case Num(x) => x.Finite?
    case Arr(items) => forall i :: 0 <= i < |items| ==> IsClean(items[i])
    case Obj(fields) => forall i :: 0 <= i < |fields| ==> IsClean(fields[i].1)
    case _ => true
  }

  /** Non-finite floats become `None`; dicts and lists are rebuilt with
      their keys, length and order, every other value is returned as it is. */
  function CleanForJson(v: Json): (r: Json)
    ensures v.Num? ==> r == (if v.n.Finite? then v else Null)
    ensures v.Arr? ==> r.Arr? && |r.items| == |v.items|
    ensures v.Obj? ==> r.Obj? && Keys(r.fields) == Keys(v.fields)
    ensures !v.Num? && !v.Arr? && !v.Obj? ==> r == v
  {
    match v
    case Num(x) => if x.Finite? then v else Null
    case Arr(items) => Arr(seq(|items|, i requires 0 <= i < |items| => CleanForJson(items[i])))
    case Obj(fields) => Obj(seq(|fields|, i requires 0 <= i < |fields| => (fields[i].0, CleanForJson(fields[i].1))))
    case _ => v
  }

  /** The cleaned value has no NaN or infinity left. */
  lemma {:induction false} CleanIsClean(v: Json)
    ensures IsClean(CleanForJson(v))
  {
    match v
    case Arr(items) =>
      forall i | 0 <= i < |items| ensures IsClean(CleanForJson(items[i])) {
        CleanIsClean(items[i]);
      }
    case Obj(fields) =>
      forall i | 0 <= i < |fields| ensures IsClean(CleanForJson(fields[i].1)) {
        CleanIsClean(fields[i].1);
      }
    case _ =>
  }

  /** A value that is already clean is returned unchanged. */
  lemma {:induction false} CleanKeepsClean(v: Json)
    requires IsClean(v)
    ensures CleanForJson(v) == v
  {
    match v
    case Arr(items) =>
      forall i | 0 <= i < |items| ensures CleanForJson(items[i]) == items[i] {
        CleanKeepsClean(items[i]);
      }
      assert CleanForJson(v).items == items;
    case Obj(fields) =>
      forall i | 0 <= i < |fields| ensures CleanForJson(fields[i].1) == fields[i].1 {
        CleanKeepsClean(fields[i].1);
      }
      assert CleanForJson(v).fields == fields;
    case _ =>
  }

  /** Cleaning changes a value exactly when it holds a NaN or an infinity. */
  lemma CleanChangesOnlyNonFinite(v: Json)
    ensures CleanForJson(v) == v <==> IsClean(v)
  {
    CleanIsClean(v);
    if IsClean(v) {
      CleanKeepsClean(v);
    }
  }

  /** Cleaning twice is cleaning once. */
  lemma CleanIdempotent(v: Json)
    ensures CleanForJson(CleanForJson(v)) == CleanForJson(v)
  {
    CleanIsClean(v);
    CleanKeepsClean(CleanForJson(v));
  }

  /** A member keeps its key and its position; its value is the cleaned one. */
  lemma CleanMember(fields: seq<(string, Json)>, key: string)
    ensures Get(CleanForJson(Obj(fields)).fields, key) ==
      (if HasKey(fields, key) then Some(CleanForJson(Get(fields, key).value)) else None)
  {
    var cleaned := CleanForJson(Obj(fields)).fields;
    GetMapped(fields, cleaned, key);
  }

  lemma {:induction false} GetMapped(fields: seq<(string, Json)>, cleaned: seq<(string, Json)>, key: string)
    requires |cleaned| == |fields|
    requires forall i :: 0 <= i < |fields| ==> cleaned[i] == (fields[i].0, CleanForJson(fields[i].1))
    ensures Get(cleaned, key) == (if HasKey(fields, key) then Some(CleanForJson(Get(fields, key).value)) else None)
    decreases |fields|
  {
    if fields != [] {
      assert Keys(fields) == [fields[0].0] + Keys(fields[1..]);
      assert Keys(cleaned) == [cleaned[0].0] + Keys(cleaned[1..]);
      GetMapped(fields[1..], cleaned[1..], key);
    }
  }
}

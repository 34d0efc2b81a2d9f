/** The browser session id (frontend/src/lib/session.ts): a version-4 UUID
    kept in the browser's key/value storage under one key. The random
    source is supplied as the function from draw number to the nibble drawn. */
module Session {
  import opened Text

  type Nibble = n: nat | n < 16

  const SessionKey := "analytics_session_id"
  const ServerSideId := "server-side-render"

  /** The id template `xxxxxxxx-xxxx-4xxx-yxxx-xxxxxxxxxxxx`, written in
      groups (`TemplateIsLiteral` checks it against the literal): every `x`
      is replaced by a random nibble, the `y` by a random nibble with its
      two high bits forced to `10`. */
  const UuidTemplate := Xs(8) + "-" + Xs(4) + "-4" + Xs(3) + "-y" + Xs(3) + "-" + Xs(12)

  predicate IsSlot(c: char)
  {
    c == 'x' || c == 'y'
  }

  /** The number of placeholders in a template. */
  function SlotCount(t: string): nat
  {
    if t == [] then 0 else (if IsSlot(t[0]) then 1 else 0) + SlotCount(t[1..])
  }

  /** `r & 0x3 | 0x8`. */
  function VariantNibble(r: Nibble): (v: Nibble)
    ensures 8 <= v <= 11 && v % 4 == r % 4
  {
    (((r as bv8) & 3) | 8) as int
  }

  /** The template `replace` with its per-character callback: placeholders
      are visited from left to right and the `k`-th one uses draw `k` of
      `Math.random() * 16 | 0`. */
  function FillTemplate(t: string, draw: nat -> Nibble, k: nat): (r: string)
    ensures |r| == |t|
  {
    if t == [] then ""
    else if t[0] == 'x' then [HexDigit(draw(k))] + FillTemplate(t[1..], draw, k + 1)
    else if t[0] == 'y' then [HexDigit(VariantNibble(draw(k)))] + FillTemplate(t[1..], draw, k + 1)
    else [t[0]] + FillTemplate(t[1..], draw, k)
  }

  /** `generateUUID()`. */
  function GenerateUuid(draw: nat -> Nibble): string
  {
    FillTemplate(UuidTemplate, draw, 0)
  }

  /** Every placeholder becomes a lower-case hex digit, the `y` one of
      `8`, `9`, `a`, `b`; every other character is kept. */
  lemma {:induction false} FillTemplateShape(t: string, draw: nat -> Nibble, k: nat)
    ensures forall i :: 0 <= i < |t| && t[i] == 'x' ==> IsHexDigit(FillTemplate(t, draw, k)[i])
    ensures forall i :: 0 <= i < |t| && t[i] == 'y' ==> FillTemplate(t, draw, k)[i] in "89ab"
    ensures forall i :: 0 <= i < |t| && !IsSlot(t[i]) ==> FillTemplate(t, draw, k)[i] == t[i]
    decreases |t|
  {
    if t != [] {
      var k' := if IsSlot(t[0]) then k + 1 else k;
      FillTemplateShape(t[1..], draw, k');
      var r := FillTemplate(t, draw, k);
      assert r[1..] == FillTemplate(t[1..], draw, k');
      forall i | 1 <= i < |t| ensures r[i] == FillTemplate(t[1..], draw, k')[i - 1] && t[i] == t[1..][i - 1] { }
      if t[0] == 'y' {
        var v := VariantNibble(draw(k));
        assert r[0] == HexDigit(v);
        assert v == 8 || v == 9 || v == 10 || v == 11;
      }
    }
  }

  function Xs(n: nat): (r: string)
    ensures |r| == n && forall i :: 0 <= i < n ==> r[i] == 'x'
  {
    seq(n, _ => 'x')
  }

  lemma TemplateLayout()
    ensures |UuidTemplate| == 36
    ensures UuidTemplate[8] == '-' && UuidTemplate[13] == '-' && UuidTemplate[18] == '-' && UuidTemplate[23] == '-'
    ensures UuidTemplate[14] == '4' && UuidTemplate[19] == 'y'
    ensures forall i :: 0 <= i < 8 || 9 <= i < 13 || 15 <= i < 18 || 20 <= i < 23 || 24 <= i < 36 ==> UuidTemplate[i] == 'x'
  {
  }

  lemma TemplateIsLiteral()
    ensures UuidTemplate == "xxxxxxxx-xxxx-4xxx-yxxx-xxxxxxxxxxxx"
  {
    TemplateLayout();
  }

  /** The shape of a generated id: 36 characters, dashes at 8, 13, 18 and 23,
      the version digit `4` at 14, the variant digit at 19 one of `8`, `9`,
      `a`, `b`, and lower-case hex digits everywhere else. */
  lemma UuidShape(draw: nat -> Nibble)
    ensures var id := GenerateUuid(draw);
      && |id| == 36
      && id[8] == '-' && id[13] == '-' && id[18] == '-' && id[23] == '-'
      && id[14] == '4'
      && id[19] in "89ab"
      && forall i :: 0 <= i < 8 || 9 <= i < 13 || 15 <= i < 18 || 20 <= i < 23 || 24 <= i < 36 ==> IsHexDigit(id[i])
  {
    TemplateLayout();
    FillTemplateShape(UuidTemplate, draw, 0);
  }

  lemma {:induction false} SlotCountConcat(a: string, b: string)
    ensures SlotCount(a + b) == SlotCount(a) + SlotCount(b)
    decreases |a|
  {
    if a == [] {
      assert a + b == b;
    } else {
      assert (a + b)[1..] == a[1..] + b;
      SlotCountConcat(a[1..], b);
    }
  }

  lemma {:induction false} SlotCountXs(n: nat)
    ensures SlotCount(Xs(n)) == n
    decreases n
  {
    if n > 0 {
      assert Xs(n)[1..] == Xs(n - 1);
      SlotCountXs(n - 1);
    }
  }

  /** The template has 31 placeholders. */
  lemma TemplateSlots()
    ensures SlotCount(UuidTemplate) == 31
  {
    SlotCountXs(8); SlotCountXs(4); SlotCountXs(3); SlotCountXs(12);
    var a := Xs(8) + "-" + Xs(4) + "-4" + Xs(3) + "-y";
    SlotCountConcat(a + Xs(3) + "-", Xs(12));
    SlotCountConcat(a + Xs(3), "-");
    SlotCountConcat(a, Xs(3));
    SlotCountConcat(Xs(8) + "-" + Xs(4) + "-4" + Xs(3), "-y");
    SlotCountConcat(Xs(8) + "-" + Xs(4) + "-4", Xs(3));
    SlotCountConcat(Xs(8) + "-" + Xs(4), "-4");
    SlotCountConcat(Xs(8) + "-", Xs(4));
    SlotCountConcat(Xs(8), "-");
  }

  /** A fill reads only the draws `k` to `k + SlotCount(t) - 1`. */
  lemma {:induction false} FillUsesSlotDraws(t: string, d1: nat -> Nibble, d2: nat -> Nibble, k: nat)
    requires forall j :: k <= j < k + SlotCount(t) ==> d1(j) == d2(j)
    ensures FillTemplate(t, d1, k) == FillTemplate(t, d2, k)
    decreases |t|
  {
    if t != [] {
      FillUsesSlotDraws(t[1..], d1, d2, if IsSlot(t[0]) then k + 1 else k);
    }
  }

  /** `generateUUID` draws 31 random nibbles: two sources that agree on
      their first 31 draws give the same id. */
  lemma UuidUsesThirtyOneDraws(d1: nat -> Nibble, d2: nat -> Nibble)
    requires forall j :: 0 <= j < 31 ==> d1(j) == d2(j)
    ensures GenerateUuid(d1) == GenerateUuid(d2)
  {
    TemplateSlots();
    FillUsesSlotDraws(UuidTemplate, d1, d2, 0);
  }

  /** The value of a lower-case hex digit. */
  function HexValue(c: char): nat
  {
    if '0' <= c <= '9' then c as int - '0' as int
    else if 'a' <= c <= 'f' then c as int - 'a' as int + 10
    else 0
  }

  lemma HexValueOfHexDigit(d: Nibble)
    ensures HexValue(HexDigit(d)) == d
  {
  }

  /** The nibbles read back from an id at the template's placeholders. */
  function ReadNibbles(t: string, id: string): (ns: seq<nat>)
    requires |id| == |t|
    ensures |ns| == SlotCount(t)
  {
    if t == [] then []
    else if IsSlot(t[0]) then [HexValue(id[0])] + ReadNibbles(t[1..], id[1..])
    else ReadNibbles(t[1..], id[1..])
  }

  /** The nibbles a fill encodes: every draw, except that the variant slot
      keeps only the two low bits of its draw. */
  function Encoded(t: string, draw: nat -> Nibble, k: nat): (ns: seq<nat>)
  {
    if t == [] then []
    else if t[0] == 'x' then [draw(k) as nat] + Encoded(t[1..], draw, k + 1)
    else if t[0] == 'y' then [VariantNibble(draw(k)) as nat] + Encoded(t[1..], draw, k + 1)
    else Encoded(t[1..], draw, k)
  }

  /** Reading the placeholders back recovers the nibbles written into them:
      a `y` slot gives the variant nibble of its draw, an `x` slot the draw. */
  lemma {:induction false} ReadNibblesOfFill(t: string, draw: nat -> Nibble, k: nat)
    ensures ReadNibbles(t, FillTemplate(t, draw, k)) == Encoded(t, draw, k)
    decreases |t|
  {
    if t != [] {
      var r := FillTemplate(t, draw, k);
      if IsSlot(t[0]) {
        ReadNibblesOfFill(t[1..], draw, k + 1);
        assert r[1..] == FillTemplate(t[1..], draw, k + 1);
        HexValueOfHexDigit(draw(k));
        HexValueOfHexDigit(VariantNibble(draw(k)));
      } else {
        ReadNibblesOfFill(t[1..], draw, k);
        assert r[1..] == FillTemplate(t[1..], draw, k);
      }
    }
  }

  /** Draws whose placeholder nibbles differ give different ids; in
      particular two draws that differ at an `x` slot do. */
  lemma DistinctEncodingsDistinctIds(t: string, d1: nat -> Nibble, d2: nat -> Nibble)
    requires Encoded(t, d1, 0) != Encoded(t, d2, 0)
    ensures FillTemplate(t, d1, 0) != FillTemplate(t, d2, 0)
  {
    ReadNibblesOfFill(t, d1, 0);
    ReadNibblesOfFill(t, d2, 0);
  }

  /** The storage after `getSessionId` and the id it returns, given the id
      `newId` that `generateUUID` would produce. Outside a browser nothing
      is read or written; an absent or empty stored id is replaced. */
  function GetOrCreate(inBrowser: bool, storage: map<string, string>, newId: string): (r: (string, map<string, string>))
    ensures !inBrowser ==> r == (ServerSideId, storage)
    ensures inBrowser ==> SessionKey in r.1 && r.1[SessionKey] == r.0
    ensures forall k :: k != SessionKey ==> (k in r.1 <==> k in storage) && (k in storage ==> r.1[k] == storage[k])
  {
    if !inBrowser then (ServerSideId, storage)
    else if SessionKey in storage && storage[SessionKey] != "" then (storage[SessionKey], storage)
    else (newId, storage[SessionKey := newId])
  }

  /** `clearSession()`: only the session entry goes, and only in a browser. */
  function Cleared(inBrowser: bool, storage: map<string, string>): (r: map<string, string>)
    ensures inBrowser ==> SessionKey !in r
    ensures forall k :: k != SessionKey ==> (k in r <==> k in storage) && (k in storage ==> r[k] == storage[k])
  {
    if inBrowser then storage - {SessionKey} else storage
  }

  /** An existing non-empty id is returned and the storage is not written. */
  lemma ExistingIdKept(storage: map<string, string>, newId: string)
    requires SessionKey in storage && storage[SessionKey] != ""
    ensures GetOrCreate(true, storage, newId) == (storage[SessionKey], storage)
  {
  }

  /** An absent or empty id is replaced by the newId one. */
  lemma MissingIdCreated(storage: map<string, string>, newId: string)
    requires SessionKey !in storage || storage[SessionKey] == ""
    ensures GetOrCreate(true, storage, newId).0 == newId
  {
  }

  /** Once an id is created, later calls return it whatever they would draw. */
  lemma SecondCallSameId(storage: map<string, string>, newId: string, newId2: string)
    requires newId != ""
    ensures var (id, s1) := GetOrCreate(true, storage, newId);
      GetOrCreate(true, s1, newId2) == (id, s1)
  {
  }

  /** After clearing, the next call creates a new id. */
  lemma ClearThenCreate(storage: map<string, string>, newId: string)
    ensures GetOrCreate(true, Cleared(true, storage), newId).0 == newId
  {
  }

  /** A generated id is never empty, so it is kept by the next call. */
  lemma GeneratedIdNonEmpty(draw: nat -> Nibble)
    ensures GenerateUuid(draw) != ""
  {
    assert |GenerateUuid(draw)| == |UuidTemplate|;
  }

  /** The browser's local storage as seen by the session helpers. */
  class SessionStore {
    var storage: map<string, string>
    const inBrowser: bool

    constructor(inBrowser: bool, storage: map<string, string>)
      ensures this.inBrowser == inBrowser && this.storage == storage
    {
      this.inBrowser := inBrowser;
      this.storage := storage;
    }

    /** `getSessionId()`; `draw` is the random source a new id would use. */
    method GetSessionId(draw: nat -> Nibble) returns (id: string)
      modifies this
      ensures (id, storage) == GetOrCreate(inBrowser, old(storage), GenerateUuid(draw))
    {
      if !inBrowser {
        return ServerSideId;
      }
      if SessionKey in storage && storage[SessionKey] != "" {
        id := storage[SessionKey];
      } else {
        id := GenerateUuid(draw);
        storage := storage[SessionKey := id];
      }
    }

    /** `clearSession()`. */
    method ClearSession()
      modifies this
      ensures storage == Cleared(inBrowser, old(storage))
    {
      if inBrowser {
        storage := storage - {SessionKey};
      }
    }
  }
}

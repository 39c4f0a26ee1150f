/** Reading JSON documents as Python reads dicts. */
module Documents {
  import opened Wrappers
  import opened CanonicalJson

  /** `d.get(key)`, with None for an absent key. */
  function ValueIn(fs: seq<PyField>, key: PyKey): Option<PyVal> {
    if fs == [] then None
    else if fs[0].key == key then Some(fs[0].value)
    else ValueIn(fs[1..], key)
  }

  function Field(doc: PyVal, key: string): Option<PyVal> {
    if doc.Dict? then ValueIn(doc.fields, StrKey(key)) else None
  }

  function TextAt(doc: PyVal, key: string): string {
    var v := Field(doc, key);
    if v.Some? && v.value.Str? then v.value.s else ""
  }

  function ItemsAt(doc: PyVal, key: string): seq<PyVal> {
    var v := Field(doc, key);
    if v.Some? && v.value.List? then v.value.items else []
  }

  /** A lookup stops at the first item with the key. */
  lemma {:induction false} FirstField(fs: seq<PyField>, k: nat, key: string)
    requires k < |fs| && fs[k].key == StrKey(key) && forall j :: 0 <= j < k ==> fs[j].key != StrKey(key)
    ensures ValueIn(fs, StrKey(key)) == Some(fs[k].value)
  {
    if k > 0 { FirstField(fs[1..], k - 1, key); }
  }

  /** A lookup finds the value of the first item with the key, and nothing without one. */
  lemma {:induction false} ValueMeans(fs: seq<PyField>, key: PyKey, v: PyVal)
    ensures ValueIn(fs, key) == Some(v) <==>
              exists k :: 0 <= k < |fs| && fs[k].key == key && fs[k].value == v
                          && forall j :: 0 <= j < k ==> fs[j].key != key
    ensures ValueIn(fs, key) == None <==> forall k :: 0 <= k < |fs| ==> fs[k].key != key
  {
    if fs != [] && fs[0].key != key {
      ValueMeans(fs[1..], key, v);
      if k :| 0 <= k < |fs| && fs[k].key == key && fs[k].value == v && forall j :: 0 <= j < k ==> fs[j].key != key {
        assert fs[1..][k - 1] == fs[k];
      }
      if k :| 0 <= k < |fs[1..]| && fs[1..][k].key == key && fs[1..][k].value == v
              && forall j :: 0 <= j < k ==> fs[1..][j].key != key {
        assert fs[k + 1] == fs[1..][k];
        assert forall j :: 0 < j < k + 1 ==> fs[j] == fs[1..][j - 1];
      }
      if forall k :: 0 <= k < |fs[1..]| ==> fs[1..][k].key != key {
        assert forall k :: 0 < k < |fs| ==> fs[k] == fs[1..][k - 1];
      }
    } else if fs != [] {
      assert fs[0].key == key;
    }
  }

  /** A field is looked up in an object only; text and items are empty when they are not there. */
  lemma FieldMeans(doc: PyVal, key: string)
    ensures doc.Dict? ==> Field(doc, key) == ValueIn(doc.fields, StrKey(key))
    ensures !doc.Dict? ==> Field(doc, key) == None
    ensures forall t :: t != "" ==> (TextAt(doc, key) == t <==> Field(doc, key) == Some(Str(t)))
    ensures TextAt(doc, key) == "" <==> !(exists t :: t != "" && Field(doc, key) == Some(Str(t)))
    ensures forall vs :: vs != [] ==> (ItemsAt(doc, key) == vs <==> Field(doc, key) == Some(List(vs)))
  {
    hide ValueIn;
  }
}

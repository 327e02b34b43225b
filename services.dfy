/**
 * The service catalogue: the table from the display names shown in the intake
 * form to the internal service keys, its inverse, and the list of keys.
 */
module Services {

  /** The entries of DISPLAY_SERVICE_TO_KEY, (display name, key), in declaration order. */
  const Catalogue: seq<(string, string)> := [
    ("SEO", "seo"),
    ("PPC", "ppc"),
    ("Social Media", "social"),
    ("Analytics and Tagging", "analytics"),
    ("Website Development", "webdev"),
    ("Email Marketing", "email"),
    ("Conversion Rate Optimization", "cro"),
    ("Local SEO and Listings", "local")
  ]

  /** No display name and no key appears twice in the catalogue. */
  lemma CatalogueDistinct()
    ensures forall i, j :: 0 <= i < |Catalogue| && 0 <= j < |Catalogue| && i != j ==>
      Catalogue[i].0 != Catalogue[j].0 && Catalogue[i].1 != Catalogue[j].1
  {
  }

  /** No catalogue entry has an empty display name or an empty key. */
  lemma CatalogueNonEmpty()
    ensures forall i :: 0 <= i < |Catalogue| ==> Catalogue[i].0 != "" && Catalogue[i].1 != ""
  {
  }

  /** `Object.fromEntries`: each entry sets its key, a later entry overriding an earlier one. */
  function FromEntries(entries: seq<(string, string)>): map<string, string> {
    if entries == [] then map[]
    else FromEntries(entries[..|entries| - 1])[entries[|entries| - 1].0 := entries[|entries| - 1].1]
  }

  /** An entry whose key no later entry repeats is what the built object holds for that key. */
  lemma {:induction false} FromEntriesHas(entries: seq<(string, string)>, i: nat)
    requires i < |entries|
    requires forall j :: i < j < |entries| ==> entries[j].0 != entries[i].0
    ensures entries[i].0 in FromEntries(entries) && FromEntries(entries)[entries[i].0] == entries[i].1
    decreases |entries|
  {
    if i < |entries| - 1 {
      FromEntriesHas(entries[..|entries| - 1], i);
    }
  }

  /** Every key of the built object comes from an entry, and its value is that entry's. */
  lemma {:induction false} FromEntriesFrom(entries: seq<(string, string)>, k: string)
    requires k in FromEntries(entries)
    ensures exists i :: 0 <= i < |entries| && entries[i].0 == k && FromEntries(entries)[k] == entries[i].1
    decreases |entries|
  {
    var n := |entries| - 1;
    if entries[n].0 != k {
      FromEntriesFrom(entries[..n], k);
      var i :| 0 <= i < n && entries[..n][i].0 == k && FromEntries(entries[..n])[k] == entries[..n][i].1;
      assert entries[i] == entries[..n][i];
    }
  }

  /** The entries with display name and key swapped. */
  function Swapped(entries: seq<(string, string)>): (r: seq<(string, string)>)
    ensures |r| == |entries|
    ensures forall i :: 0 <= i < |entries| ==> r[i] == (entries[i].1, entries[i].0)
  {
    seq(|entries|, i requires 0 <= i < |entries| => (entries[i].1, entries[i].0))
  }

  /** DISPLAY_SERVICE_TO_KEY: display name to service key. */
  function DisplayToKey(): map<string, string> {
    FromEntries(Catalogue)
  }

  /** SERVICE_KEY_TO_DISPLAY: `Object.fromEntries` over the swapped entries. */
  function KeyToDisplay(): map<string, string> {
    FromEntries(Swapped(Catalogue))
  }

  /** DISPLAY_SERVICE_TO_KEY holds exactly the catalogue's entries. */
  lemma DisplayToKeyEntries()
    ensures forall i :: 0 <= i < |Catalogue| ==> Catalogue[i].0 in DisplayToKey() && DisplayToKey()[Catalogue[i].0] == Catalogue[i].1
    ensures forall d :: d in DisplayToKey() ==>
      exists i :: 0 <= i < |Catalogue| && Catalogue[i].0 == d && DisplayToKey()[d] == Catalogue[i].1
  {
    CatalogueDistinct();
    forall i | 0 <= i < |Catalogue|
      ensures Catalogue[i].0 in DisplayToKey() && DisplayToKey()[Catalogue[i].0] == Catalogue[i].1
    {
      FromEntriesHas(Catalogue, i);
    }
    forall d | d in DisplayToKey()
      ensures exists i :: 0 <= i < |Catalogue| && Catalogue[i].0 == d && DisplayToKey()[d] == Catalogue[i].1
    {
      FromEntriesFrom(Catalogue, d);
    }
  }

  /**
   * SERVICE_KEY_TO_DISPLAY holds exactly the swapped catalogue entries: since
   * the keys are distinct, no later entry overrides an earlier one.
   */
  lemma KeyToDisplayEntries()
    ensures forall i :: 0 <= i < |Catalogue| ==> Catalogue[i].1 in KeyToDisplay() && KeyToDisplay()[Catalogue[i].1] == Catalogue[i].0
    ensures forall k :: k in KeyToDisplay() ==>
      exists i :: 0 <= i < |Catalogue| && Catalogue[i].1 == k && KeyToDisplay()[k] == Catalogue[i].0
  {
    CatalogueDistinct();
    var sw := Swapped(Catalogue);
    forall i | 0 <= i < |Catalogue|
      ensures Catalogue[i].1 in KeyToDisplay() && KeyToDisplay()[Catalogue[i].1] == Catalogue[i].0
    {
      FromEntriesHas(sw, i);
    }
    forall k | k in KeyToDisplay()
      ensures exists i :: 0 <= i < |Catalogue| && Catalogue[i].1 == k && KeyToDisplay()[k] == Catalogue[i].0
    {
      FromEntriesFrom(sw, k);
      var i :| 0 <= i < |sw| && sw[i].0 == k && FromEntries(sw)[k] == sw[i].1;
      assert Catalogue[i].1 == k;
    }
  }

  /** SERVICE_KEYS: `Object.values(DISPLAY_SERVICE_TO_KEY)`, in declaration order. */
  function ServiceKeys(): (keys: seq<string>)
    ensures |keys| == |Catalogue|
    ensures forall i :: 0 <= i < |Catalogue| ==> keys[i] == Catalogue[i].1
  {
    seq(|Catalogue|, i requires 0 <= i < |Catalogue| => Catalogue[i].1)
  }

  /** No catalogue key is empty, so `filter(Boolean)` never drops a mapped display name. */
  lemma KeyNonEmpty(d: string)
    requires d in DisplayToKey()
    ensures DisplayToKey()[d] != ""
  {
    DisplayToKeyEntries();
    CatalogueNonEmpty();
    var i :| 0 <= i < |Catalogue| && Catalogue[i].0 == d && DisplayToKey()[d] == Catalogue[i].1;
  }

  /** No catalogue display name is empty. */
  lemma DisplayNameNonEmpty(d: string)
    requires d in DisplayToKey()
    ensures d != ""
  {
    DisplayToKeyEntries();
    CatalogueNonEmpty();
    var i :| 0 <= i < |Catalogue| && Catalogue[i].0 == d && DisplayToKey()[d] == Catalogue[i].1;
  }

  /** Every value of DISPLAY_SERVICE_TO_KEY is a listed service key. */
  lemma ValueIsKey(k: string)
    requires k in DisplayToKey().Values
    ensures k in ServiceKeys() && k in KeyToDisplay()
  {
    DisplayToKeyEntries();
    KeyToDisplayEntries();
    var d :| d in DisplayToKey() && DisplayToKey()[d] == k;
    var i :| 0 <= i < |Catalogue| && Catalogue[i].0 == d && DisplayToKey()[d] == Catalogue[i].1;
    assert ServiceKeys()[i] == k;
  }

  /** Two display names never share a key. */
  lemma DisplayToKeyInjective(d1: string, d2: string)
    requires d1 in DisplayToKey() && d2 in DisplayToKey() && d1 != d2
    ensures DisplayToKey()[d1] != DisplayToKey()[d2]
  {
    DisplayToKeyEntries();
    CatalogueDistinct();
    var i :| 0 <= i < |Catalogue| && Catalogue[i].0 == d1 && DisplayToKey()[d1] == Catalogue[i].1;
    var j :| 0 <= j < |Catalogue| && Catalogue[j].0 == d2 && DisplayToKey()[d2] == Catalogue[j].1;
  }

  /** Mapping a display name to its key and back gives the display name. */
  lemma DisplayRoundTrip(d: string)
    requires d in DisplayToKey()
    ensures DisplayToKey()[d] in KeyToDisplay() && KeyToDisplay()[DisplayToKey()[d]] == d
  {
    DisplayToKeyEntries();
    KeyToDisplayEntries();
    var i :| 0 <= i < |Catalogue| && Catalogue[i].0 == d && DisplayToKey()[d] == Catalogue[i].1;
  }

  /** Mapping a listed key to its display name and back gives the key. */
  lemma KeyRoundTrip(k: string)
    requires k in ServiceKeys()
    ensures k in KeyToDisplay()
    ensures KeyToDisplay()[k] in DisplayToKey() && DisplayToKey()[KeyToDisplay()[k]] == k
  {
    DisplayToKeyEntries();
    KeyToDisplayEntries();
    var i :| 0 <= i < |Catalogue| && ServiceKeys()[i] == k;
  }

  /** SERVICE_KEYS lists each catalogue key once, and exactly the keys SERVICE_KEY_TO_DISPLAY knows. */
  lemma ServiceKeysExact()
    ensures forall i, j :: 0 <= i < j < |ServiceKeys()| ==> ServiceKeys()[i] != ServiceKeys()[j]
    ensures forall k :: k in ServiceKeys() <==> k in KeyToDisplay()
  {
    CatalogueDistinct();
    KeyToDisplayEntries();
    forall k | k in KeyToDisplay()
      ensures k in ServiceKeys()
    {
      var i :| 0 <= i < |Catalogue| && Catalogue[i].1 == k && KeyToDisplay()[k] == Catalogue[i].0;
      assert ServiceKeys()[i] == k;
    }
  }
}

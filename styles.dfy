/** The fixed table from event type to map icon and colour, and its lookup with a default. */
module Styles {
  import opened Wrappers

  datatype Style = Style(icon: string, color: string)

  /** The six known event types with their styles, in the order the table lists them. */
  const StyleTable: seq<(string, Style)> := [
    ("Strategic developments", Style("glyphicon-flag", "darkblue")),
    ("Battles", Style("glyphicon-flash", "darkred")),
    ("Violence against civilians", Style("glyphicon-warning-sign", "black")),
    ("Riots", Style("glyphicon-fire", "orange")),
    ("Explosions/Remote violence", Style("glyphicon-certificate", "red")),
    ("Protests", Style("glyphicon-bullhorn", "green"))
  ]

  /** The style of every event type the table does not list. */
  const DefaultStyle: Style := Style("glyphicon-question-sign", "gray")

  /** The table's keys in table order: the choices the event form offers. */
  function KnownTypes(): (ks: seq<string>)
    ensures |ks| == |StyleTable|
    ensures forall i :: 0 <= i < |ks| ==> ks[i] == StyleTable[i].0
  {
    seq(|StyleTable|, i requires 0 <= i < |StyleTable| => StyleTable[i].0)
  }

  /** Exact-match lookup of `key` among the entries of `table`, first match first. */
  function Lookup(table: seq<(string, Style)>, key: string): (r: Option<Style>)
    ensures r.Some? <==> exists i :: 0 <= i < |table| && table[i].0 == key
    ensures r.Some? ==> exists i :: 0 <= i < |table| && table[i] == (key, r.value)
  {
    if table == [] then None
    else if table[0].0 == key then Some(table[0].1)
    else
      var r := Lookup(table[1..], key);
      if r.Some? then
        var i :| 0 <= i < |table| - 1 && table[1..][i] == (key, r.value);
        assert table[i + 1] == (key, r.value);
        r
      else r
  }

  /** The style a marker of type `eventType` is drawn with; never fails. */
  function Resolve(eventType: string): (s: Style)
    ensures eventType in KnownTypes() ==>
      exists i :: 0 <= i < |StyleTable| && StyleTable[i] == (eventType, s)
    ensures eventType !in KnownTypes() ==> s == DefaultStyle
  {
    Lookup(StyleTable, eventType).GetOr(DefaultStyle)
  }

  /** No two entries share a key, so the first match is the only match. */
  lemma KeysDistinct(i: nat, j: nat)
    requires i < j < |StyleTable|
    ensures StyleTable[i].0 != StyleTable[j].0
  {
    assert StyleTable[0].0[0] == 'S' && StyleTable[1].0[0] == 'B' && StyleTable[2].0[0] == 'V';
    assert StyleTable[3].0[0] == 'R' && StyleTable[4].0[0] == 'E' && StyleTable[5].0[0] == 'P';
  }

  /** Every known event type resolves to exactly the style listed beside it. */
  lemma ResolveKnown(i: nat)
    requires i < |StyleTable|
    ensures Resolve(StyleTable[i].0) == StyleTable[i].1
  {
    var key := StyleTable[i].0;
    assert KnownTypes()[i] == key;
    var s := Resolve(key);
    var j :| 0 <= j < |StyleTable| && StyleTable[j] == (key, s);
    if i < j { KeysDistinct(i, j); } else if j < i { KeysDistinct(j, i); }
  }

  /** The six listed pairs, written out. */
  lemma ResolveTable()
    ensures Resolve("Strategic developments") == Style("glyphicon-flag", "darkblue")
    ensures Resolve("Battles") == Style("glyphicon-flash", "darkred")
    ensures Resolve("Violence against civilians") == Style("glyphicon-warning-sign", "black")
    ensures Resolve("Riots") == Style("glyphicon-fire", "orange")
    ensures Resolve("Explosions/Remote violence") == Style("glyphicon-certificate", "red")
    ensures Resolve("Protests") == Style("glyphicon-bullhorn", "green")
  {
    ResolveKnown(0); ResolveKnown(1); ResolveKnown(2);
    ResolveKnown(3); ResolveKnown(4); ResolveKnown(5);
  }

  /** Matching is exact: the empty string and a lower-case variant fall back to the default. */
  lemma ResolveUnlisted()
    ensures Resolve("") == DefaultStyle
    ensures Resolve("riots") == DefaultStyle
  {
    assert "" !in KnownTypes() by {
      forall i | 0 <= i < |StyleTable| ensures StyleTable[i].0 != "" {
        assert |StyleTable[i].0| > 0;
      }
    }
    assert "riots" !in KnownTypes() by {
      forall i | 0 <= i < |StyleTable| ensures StyleTable[i].0 != "riots" {
        assert StyleTable[i].0[0] != 'r';
      }
    }
  }

  /** A known event type never gets the default style: no listed style is the default one. */
  lemma KnownNotDefault(eventType: string)
    requires eventType in KnownTypes()
    ensures Resolve(eventType) != DefaultStyle
  {
    var s := Resolve(eventType);
    var i :| 0 <= i < |StyleTable| && StyleTable[i] == (eventType, s);
    assert StyleTable[i].1.color != "gray";
  }
}

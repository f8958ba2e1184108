/**
 * Component, directive and pipe metadata taken from the single qualifying decorator
 * (libs/ngx-doc-gen/src/common/directive-metadata.ts).
 */
module DirectiveMetadata {
  import opened Wrappers
  import opened Sequences
  import opened DgeniDocs

  predicate IsCallExpression(d: Decorator) { d.isCallExpression }

  predicate HasAngularName(d: Decorator) { d.name == "Component" || d.name == "Directive" || d.name == "Pipe" }

  /** A decorator that counts toward the "exactly one" rule. */
  predicate IsQualifying(d: Decorator) { d.isCallExpression && HasAngularName(d) }

  /** `classDoc.decorators || []`. */
  function DecoratorsOf(doc: Doc): seq<Decorator>
  {
    if doc.decorators.Some? then doc.decorators.value else []
  }

  /** The call-expression decorators named Component, Directive or Pipe, in order. */
  function AngularDecorators(classDoc: Doc): (r: seq<Decorator>)
    ensures r == Filter(DecoratorsOf(classDoc), IsQualifying)
  {
    FilterFilter(DecoratorsOf(classDoc), IsCallExpression, HasAngularName, IsQualifying);
    Filter(Filter(DecoratorsOf(classDoc), IsCallExpression), HasAngularName)
  }

  /** `decorator.argumentInfo || []`. */
  function ArgumentInfosOf(d: Decorator): seq<ArgumentInfo>
  {
    if d.argumentInfo.Some? then d.argumentInfo.value else []
  }

  /** `m` after `set(key, value)` for each string-valued entry, in order. */
  function SetStringEntries(m: map<string, string>, entries: ArgumentInfo): map<string, string>
    decreases |entries|
  {
    if entries == [] then m
    else
      var previous := SetStringEntries(m, entries[..|entries| - 1]);
      var entry := entries[|entries| - 1];
      if entry.1.StringValue? then previous[entry.0 := entry.1.text] else previous
  }

  /** The metadata map filled from the argument objects, one after another. */
  function MergedMetadata(infos: seq<ArgumentInfo>): map<string, string>
    decreases |infos|
  {
    if infos == [] then map[] else SetStringEntries(MergedMetadata(infos[..|infos| - 1]), infos[|infos| - 1])
  }

  method GetDirectiveMetadata(classDoc: Doc) returns (r: Option<map<string, string>>)
    ensures r.None? <==> |AngularDecorators(classDoc)| != 1
    ensures r.Some? ==> r.value == MergedMetadata(ArgumentInfosOf(AngularDecorators(classDoc)[0]))
    ensures r.Some? && AngularDecorators(classDoc)[0].argumentInfo.None? ==> r.value == map[]
  {
    var angularDecorators := AngularDecorators(classDoc);
    if |angularDecorators| != 1 {
      return None;
    }
    var infos := ArgumentInfosOf(angularDecorators[0]);
    var resultMetadata: map<string, string> := map[];
    var i := 0;
    while i < |infos|
      invariant 0 <= i <= |infos|
      invariant resultMetadata == MergedMetadata(infos[..i])
    {
      var entries := infos[i];
      var j := 0;
      while j < |entries|
        invariant 0 <= j <= |entries|
        invariant resultMetadata == SetStringEntries(MergedMetadata(infos[..i]), entries[..j])
      {
        var (key, value) := entries[j];
        assert entries[..j + 1][..j] == entries[..j];
        if value.StringValue? {
          resultMetadata := resultMetadata[key := value.text];
        }
        j := j + 1;
      }
      assert infos[..i + 1][..i] == infos[..i];
      assert entries[..j] == entries;
      i := i + 1;
    }
    assert infos[..i] == infos;
    r := Some(resultMetadata);
  }

  // ---- what the metadata map holds ----

  /** All entries of all argument objects, in order. */
  function Flatten(infos: seq<ArgumentInfo>): seq<(string, ArgumentValue)>
    decreases |infos|
  {
    if infos == [] then [] else Flatten(infos[..|infos| - 1]) + infos[|infos| - 1]
  }

  lemma {:induction false} SetStringEntriesAppend(m: map<string, string>, a: ArgumentInfo, b: ArgumentInfo)
    ensures SetStringEntries(m, a + b) == SetStringEntries(SetStringEntries(m, a), b)
    decreases |b|
  {
    if b == [] {
      assert a + b == a;
    } else {
      assert (a + b)[..|a + b| - 1] == a + b[..|b| - 1];
      SetStringEntriesAppend(m, a, b[..|b| - 1]);
    }
  }

  lemma {:induction false} MergedIsFlattened(infos: seq<ArgumentInfo>)
    ensures MergedMetadata(infos) == SetStringEntries(map[], Flatten(infos))
    decreases |infos|
  {
    if infos != [] {
      MergedIsFlattened(infos[..|infos| - 1]);
      SetStringEntriesAppend(map[], Flatten(infos[..|infos| - 1]), infos[|infos| - 1]);
    }
  }

  /** Over one entry list: a key is present iff some entry for it is a string, and holds the last such string. */
  lemma {:induction false} SetStringEntriesLastWins(entries: ArgumentInfo, key: string)
    ensures var m := SetStringEntries(map[], entries);
      && (key in m <==> exists t :: 0 <= t < |entries| && entries[t].0 == key && entries[t].1.StringValue?)
      && (key in m ==> exists t :: 0 <= t < |entries| && entries[t] == (key, StringValue(m[key])) &&
                         forall u :: t < u < |entries| && entries[u].0 == key ==> !entries[u].1.StringValue?)
    decreases |entries|
  {
    if entries != [] {
      var n := |entries| - 1;
      var prefix := entries[..n];
      SetStringEntriesLastWins(prefix, key);
      var m := SetStringEntries(map[], entries);
      if entries[n].0 == key && entries[n].1.StringValue? {
        assert entries[n] == (key, StringValue(m[key]));
      } else if key in m {
        var pm := SetStringEntries(map[], prefix);
        assert key in pm && m[key] == pm[key];
        var t :| 0 <= t < n && prefix[t] == (key, StringValue(pm[key])) &&
                 forall u :: t < u < n && prefix[u].0 == key ==> !prefix[u].1.StringValue?;
        assert entries[t] == prefix[t];
        assert forall u :: t < u < |entries| && entries[u].0 == key ==> !entries[u].1.StringValue? by {
          forall u | t < u < |entries| && entries[u].0 == key
            ensures !entries[u].1.StringValue?
          {
            if u < n { assert entries[u] == prefix[u]; }
          }
        }
      } else {
        assert forall t :: 0 <= t < n ==> entries[t] == prefix[t];
      }
    }
  }

  /**
   * The metadata holds a key iff some argument object gives it a string value, and then the value
   * of the last such entry: non-string values are dropped and later strings overwrite earlier ones.
   */
  lemma {:induction false} MetadataLastStringWins(infos: seq<ArgumentInfo>, key: string)
    ensures var m := MergedMetadata(infos);
            var entries := Flatten(infos);
      && (key in m <==> exists t :: 0 <= t < |entries| && entries[t].0 == key && entries[t].1.StringValue?)
      && (key in m ==> exists t :: 0 <= t < |entries| && entries[t] == (key, StringValue(m[key])) &&
                         forall u :: t < u < |entries| && entries[u].0 == key ==> !entries[u].1.StringValue?)
  {
    MergedIsFlattened(infos);
    SetStringEntriesLastWins(Flatten(infos), key);
  }

  lemma {:induction false} FilterSkipsNonQualifying(before: seq<Decorator>, d: Decorator, after: seq<Decorator>)
    requires !IsQualifying(d)
    ensures Filter(before + [d] + after, IsQualifying) == Filter(before + after, IsQualifying)
  {
    assert Filter([d], IsQualifying) == [];
    FilterAppend(before + [d], after, IsQualifying);
    FilterAppend(before, [d], IsQualifying);
    FilterAppend(before, after, IsQualifying);
  }

  /** A decorator that is not a qualifying call does not count toward the "exactly one" rule. */
  lemma {:induction false} NonQualifyingDecoratorIgnored(classDoc: Doc, d: Decorator, k: nat)
    requires classDoc.decorators.Some? && k <= |classDoc.decorators.value|
    requires !IsQualifying(d)
    ensures var ds := classDoc.decorators.value;
            AngularDecorators(classDoc.(decorators := Some(ds[..k] + [d] + ds[k..]))) == AngularDecorators(classDoc)
  {
    var ds := classDoc.decorators.value;
    FilterSkipsNonQualifying(ds[..k], d, ds[k..]);
    assert ds[..k] + ds[k..] == ds;
  }
}

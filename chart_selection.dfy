/** Which charts are selected and how a channel name is shown as a label; the live
    dashboard and the history view use the same toggle and the same label formatting. */
module ChartSelection {
  import opened Js

  /** `list.filter(c => c !== name)`. */
  function RemoveAll(list: seq<string>, name: string): (r: seq<string>)
    ensures |r| <= |list|
    ensures forall x :: x in r <==> x in list && x != name
  {
    if |list| == 0 then []
    else (if list[0] == name then [] else [list[0]]) + RemoveAll(list[1..], name)
  }

  /** `a` is `b` with some elements deleted, the rest in their original order. */
  ghost predicate IsSubsequence(a: seq<string>, b: seq<string>)
    decreases |b|
  {
    if |a| == 0 then true
    else if |b| == 0 then false
    else if a[0] == b[0] then IsSubsequence(a[1..], b[1..])
    else IsSubsequence(a, b[1..])
  }

  /** Removal keeps the other elements in their original order. */
  lemma {:induction false} RemoveAllOrdered(list: seq<string>, name: string)
    ensures IsSubsequence(RemoveAll(list, name), list)
  {
    if |list| > 0 {
      RemoveAllOrdered(list[1..], name);
      var rest := RemoveAll(list[1..], name);
      if list[0] != name {
        assert RemoveAll(list, name) == [list[0]] + rest;
        assert RemoveAll(list, name)[1..] == rest;
      } else {
        assert RemoveAll(list, name) == rest;
        if |rest| > 0 {
          assert rest[0] != name by { assert rest[0] in rest; }
        }
      }
    }
  }

  /** Removal deletes every occurrence of the name and no occurrence of anything else. */
  lemma {:induction false} RemoveAllCounts(list: seq<string>, name: string)
    ensures multiset(RemoveAll(list, name)) == multiset(list)[name := 0]
  {
    if |list| > 0 {
      RemoveAllCounts(list[1..], name);
      assert list == [list[0]] + list[1..];
      assert multiset(list) == multiset{list[0]} + multiset(list[1..]);
    }
  }

  /** Removing a name that is not there changes nothing. */
  lemma {:induction false} RemoveAllAbsent(list: seq<string>, name: string)
    requires name !in list
    ensures RemoveAll(list, name) == list
  {
    if |list| > 0 {
      RemoveAllAbsent(list[1..], name);
      assert [list[0]] + list[1..] == list;
    }
  }

  lemma {:induction false} RemoveAllAppend(list: seq<string>, x: string, name: string)
    ensures RemoveAll(list + [x], name) == RemoveAll(list, name) + RemoveAll([x], name)
  {
    if |list| == 0 {
      assert list + [x] == [x];
    } else {
      assert (list + [x])[1..] == list[1..] + [x];
      RemoveAllAppend(list[1..], x, name);
    }
  }

  /** The selection updater: drop the name when it is selected, append it otherwise. */
  function Toggle(list: seq<string>, name: string): (r: seq<string>)
    ensures name in r <==> name !in list
    ensures forall x :: x != name ==> (x in r <==> x in list)
  {
    if name in list then RemoveAll(list, name) else list + [name]
  }

  /** An absent name goes to the end; a present one is removed, with the other names kept
      in their original order and multiplicity. */
  lemma ToggleSpec(list: seq<string>, name: string)
    ensures name !in list ==> Toggle(list, name) == list + [name]
    ensures name in list ==>
              IsSubsequence(Toggle(list, name), list) &&
              multiset(Toggle(list, name)) == multiset(list)[name := 0]
  {
    RemoveAllOrdered(list, name);
    RemoveAllCounts(list, name);
  }

  /** Toggling an unselected name twice restores the selection. */
  lemma ToggleTwiceRestores(list: seq<string>, name: string)
    requires name !in list
    ensures Toggle(Toggle(list, name), name) == list
  {
    RemoveAllAppend(list, name, name);
    RemoveAllAbsent(list, name);
    assert RemoveAll([name], name) == [];
  }

  /** A click on a dropdown item's checkbox: the checkbox's `onChange` toggles the name,
      and the click then reaches the item, whose `onClick` toggles it again. */
  function CheckboxClick(list: seq<string>, name: string): (r: seq<string>)
    ensures forall x :: x != name ==> (x in r <==> x in list)
  {
    Toggle(Toggle(list, name), name)
  }

  /** As written, a click on the checkbox leaves every name's membership as it was: an
      unselected name stays unselected and the selection is unchanged, and a selected
      name is taken out and put back at the end. */
  lemma CheckboxClickChangesNothing(list: seq<string>, name: string)
    ensures forall x :: x in CheckboxClick(list, name) <==> x in list
    ensures name !in list ==> CheckboxClick(list, name) == list
    ensures name in list ==> CheckboxClick(list, name) == RemoveAll(list, name) + [name]
  {
    if name !in list {
      ToggleTwiceRestores(list, name);
    } else {
      assert name !in RemoveAll(list, name);
    }
  }

  predicate IsWordChar(c: char)
  {
    'a' <= c <= 'z' || 'A' <= c <= 'Z' || '0' <= c <= '9' || c == '_'
  }

  /** `toUpperCase` on a word character: only `a`-`z` change. */
  function ToUpper(c: char): (u: char)
    ensures IsWordChar(c) ==> IsWordChar(u)
  {
    if 'a' <= c <= 'z' then (c as int - 32) as char else c
  }

  /** `s.replace('_', ' ')` with a string pattern: only the first underscore. */
  function ReplaceFirstUnderscore(s: string): (r: string)
    ensures |r| == |s|
  {
    var i := IndexOf(s, '_');
    if i < 0 then s else s[i := ' ']
  }

  /** Upper-cases each word character that starts a word, i.e. does not follow another word
      character (the `\b\w` pattern). */
  function CapitalizeWords(s: string): (r: string)
    ensures |r| == |s|
  {
    seq(|s|, i requires 0 <= i < |s| =>
      if IsWordChar(s[i]) && (i == 0 || !IsWordChar(s[i - 1])) then ToUpper(s[i]) else s[i])
  }

  /** A channel name as a chart label: the same length, with the first underscore shown
      as a space. */
  function FormatLabel(name: string): (r: string)
    ensures |r| == |name|
    ensures 0 <= IndexOf(name, '_') ==> r[IndexOf(name, '_')] == ' '
  {
    CapitalizeWords(ReplaceFirstUnderscore(name))
  }

  /** Every character other than the first underscore is kept, except that a word character
      starting a word of the name -- at the front, after the first underscore, or after a
      character that is not a word character -- is upper-cased. Later underscores are word
      characters, so the letter after one is left alone. */
  lemma FormatLabelSpec(name: string)
    ensures forall i :: 0 <= i < |name| && i != IndexOf(name, '_') ==>
              FormatLabel(name)[i] ==
                if IsWordChar(name[i]) && (i == 0 || i - 1 == IndexOf(name, '_') || !IsWordChar(name[i - 1]))
                then ToUpper(name[i]) else name[i]
  {
    var u := IndexOf(name, '_');
    var s := ReplaceFirstUnderscore(name);
    var f := FormatLabel(name);
    assert f == CapitalizeWords(s);
    forall i | 0 <= i < |name| && i != u
      ensures f[i] ==
                if IsWordChar(name[i]) && (i == 0 || i - 1 == u || !IsWordChar(name[i - 1]))
                then ToUpper(name[i]) else name[i]
    {
      assert f[i] == if IsWordChar(s[i]) && (i == 0 || !IsWordChar(s[i - 1])) then ToUpper(s[i]) else s[i];
      assert s[i] == name[i];
      if 0 < i {
        if i - 1 == u {
          assert s[i - 1] == ' ';
        } else {
          assert s[i - 1] == name[i - 1];
        }
      }
    }
  }

  /** The first underscore is the one after the underscore-free prefix, and only it
      becomes a space. */
  lemma ReplaceAtFirstUnderscore(prefix: string, rest: string)
    requires '_' !in prefix
    ensures ReplaceFirstUnderscore(prefix + "_" + rest) == prefix + " " + rest
  {
    var s := prefix + "_" + rest;
    assert s[|prefix|] == '_';
    var i := IndexOf(s, '_');
    assert s[..|prefix|] == prefix;
    assert s[i := ' '] == prefix + " " + rest;
  }

  lemma ReplacePelvisTx()
    ensures ReplaceFirstUnderscore("pelvis_tx") == "pelvis tx"
  {
    assert "pelvis_tx" == "pelvis" + "_" + "tx";
    assert "pelvis tx" == "pelvis" + " " + "tx";
    ReplaceAtFirstUnderscore("pelvis", "tx");
  }

  lemma CapitalizePelvisTx()
    ensures CapitalizeWords("pelvis tx") == "Pelvis Tx"
  {
    var r := CapitalizeWords("pelvis tx");
    assert r[0] == 'P' && r[1] == 'e' && r[2] == 'l' && r[3] == 'v' && r[4] == 'i' && r[5] == 's' && r[6] == ' ';
    assert r[7] == 'T' && r[8] == 'x';
  }

  /** The label of the default chart. */
  lemma FormatPelvisTx()
    ensures FormatLabel("pelvis_tx") == "Pelvis Tx"
  {
    ReplacePelvisTx();
    CapitalizePelvisTx();
  }

  lemma ReplaceHipFlexionR()
    ensures ReplaceFirstUnderscore("hip_flexion_r") == "hip flexion_r"
  {
    assert "hip_flexion_r" == "hip" + "_" + "flexion_r";
    assert "hip flexion_r" == "hip" + " " + "flexion_r";
    ReplaceAtFirstUnderscore("hip", "flexion_r");
  }

  lemma CapitalizeHipFlexionR()
    ensures CapitalizeWords("hip flexion_r") == "Hip Flexion_r"
  {
    var r := CapitalizeWords("hip flexion_r");
    assert r[0] == 'H' && r[1] == 'i' && r[2] == 'p' && r[3] == ' ' && r[4] == 'F' && r[5] == 'l' && r[6] == 'e';
    assert r[7] == 'x' && r[8] == 'i' && r[9] == 'o' && r[10] == 'n' && r[11] == '_' && r[12] == 'r';
  }

  /** Only the first underscore becomes a space, so a name with two keeps its second one,
      and the letter after it stays lower-case. */
  lemma FormatHipFlexionR()
    ensures FormatLabel("hip_flexion_r") == "Hip Flexion_r"
  {
    ReplaceHipFlexionR();
    CapitalizeHipFlexionR();
  }
}

/**
 * Placeholders for long pastes: a label stands in the draft for its stored
 * content until the draft is submitted and the labels are expanded.
 */
module PasteStore {
  import opened Common
  import opened Decimal

  // ----- Labels -----

  function Label(chars: nat, number: nat): string {
    "[pasted " + Numeral(chars) + " chars #" + Numeral(number) + "]"
  }

  /** A bracket opens the label and a bracket closes it; inside are none. */
  predicate Bracketed(l: string) {
    && |l| >= 2 && l[0] == '[' && l[|l| - 1] == ']'
    && (forall i :: 0 < i < |l| ==> l[i] != '[')
    && (forall i :: 0 <= i < |l| - 1 ==> l[i] != ']')
  }

  predicate NoBrackets(s: string) {
    forall i :: 0 <= i < |s| ==> s[i] != '[' && s[i] != ']'
  }

  lemma InBrackets(inside: string)
    requires NoBrackets(inside)
    ensures Bracketed("[" + inside + "]")
  {
  }

  lemma NoBracketsConcat(a: string, b: string)
    requires NoBrackets(a) && NoBrackets(b)
    ensures NoBrackets(a + b)
  {
  }

  lemma LabelIsBracketed(chars: nat, number: nat)
    ensures Bracketed(Label(chars, number))
  {
    hide Numeral, Bracketed;
    var a, b := Numeral(chars), Numeral(number);
    assert NoBrackets(a) && NoBrackets(b);
    NoBracketsConcat("pasted ", a);
    NoBracketsConcat("pasted " + a, " chars #");
    NoBracketsConcat("pasted " + a + " chars #", b);
    InBrackets("pasted " + a + " chars #" + b);
    assert Label(chars, number) == "[" + ("pasted " + a + " chars #" + b) + "]";
  }

  function BeforeNumber(chars: nat): string {
    "[pasted " + Numeral(chars) + " chars #"
  }

  /** The one hash of a label stands right before its number. */
  lemma HashPosition(chars: nat, number: nat)
    ensures Label(chars, number) == BeforeNumber(chars) + (Numeral(number) + "]")
    ensures forall i :: 0 <= i < |Label(chars, number)| ==>
              (Label(chars, number)[i] == '#' <==> i == |BeforeNumber(chars)| - 1)
  {
    hide Numeral;
    var head, tail := BeforeNumber(chars), Numeral(number) + "]";
    assert head == ("[pasted " + Numeral(chars) + " chars ") + "#";
    assert forall i :: 0 <= i < |head| - 1 ==> head[i] != '#';
    assert forall i :: 0 <= i < |tail| ==> tail[i] != '#';
    assert Label(chars, number) == head + tail;
  }

  /** Labels with different numbers differ. */
  lemma LabelsDiffer(chars: nat, number: nat, chars': nat, number': nat)
    requires Label(chars, number) == Label(chars', number')
    ensures number == number'
  {
    hide Numeral, Label, BeforeNumber;
    HashPosition(chars, number);
    HashPosition(chars', number');
    var l, n := Label(chars, number), |BeforeNumber(chars)|;
    HashIsThere(chars, number);
    HashIsThere(chars', number');
    assert l[n..|l| - 1] == Numeral(number);
    assert l[n..|l| - 1] == Numeral(number');
    NumeralInjective(number, number');
  }

  lemma HashIsThere(chars: nat, number: nat)
    ensures 0 < |BeforeNumber(chars)| <= |Label(chars, number)|
    ensures Label(chars, number)[|BeforeNumber(chars)| - 1] == '#'
  {
  }

  function Power10(d: nat): nat {
    if d == 0 then 1 else 10 * Power10(d - 1)
  }

  lemma {:induction false} NumeralLength(n: nat, d: nat)
    requires d > 0 && n < Power10(d)
    ensures |Numeral(n)| <= d
  {
    if n >= 10 {
      assert d > 1;
      NumeralLength(n / 10, d - 1);
    }
  }

  const PasteThreshold := 1000

  /** With machine-sized counts a label is far shorter than any paste that
      becomes a placeholder. */
  lemma LabelsAreShort(chars: nat, number: nat)
    requires chars < Power10(19) && number < Power10(19)
    ensures |Label(chars, number)| < PasteThreshold
  {
    NumeralLength(chars, 19);
    NumeralLength(number, 19);
  }

  // ----- Expansion -----

  /** One label after the other, each replaced everywhere. */
  function Sequential(draft: string, order: seq<string>, entries: map<string, string>): string
    requires forall l :: l in order ==> l in entries && l != ""
    decreases |order|
  {
    if order == [] then draft
    else
      assert forall l :: l in order[1..] ==> l in order;
      Sequential(ReplaceAll(draft, order[0], entries[order[0]]), order[1..], entries)
  }

  /** The label the text begins with, if any. */
  ghost function LabelAt(text: string, entries: map<string, string>): Option<string> {
    if exists l :: l in entries && l <= text then (var l :| l in entries && l <= text; Some(l)) else None
  }

  /** All labels replaced at once, in one pass over the draft. */
  ghost function Simultaneous(draft: string, entries: map<string, string>): string
    requires forall l :: l in entries ==> Bracketed(l)
  {
    if draft == "" then ""
    else
      var l := LabelAt(draft, entries);
      if l.Some? then entries[l.value] + Simultaneous(draft[|l.value|..], entries)
      else [draft[0]] + Simultaneous(draft[1..], entries)
  }

  ghost predicate Labels(entries: map<string, string>) {
    forall l :: l in entries ==> Bracketed(l)
  }

  /** No part of the content can end or begin a label, and neither lies inside
      the other. */
  ghost predicate Apart(content: string, l: string) {
    && (forall i :: 0 <= i < |content| ==> !(l <= content[i..]) && !(content[i..] <= l))
    && (forall j :: 0 < j < |l| ==> !(l[j..] <= content) && !(content <= l[j..]))
  }

  /** No content can bring up another label that is replaced after its own. */
  ghost predicate Clean(entries: map<string, string>) {
    && Labels(entries)
    && (forall k, l :: k in entries && l in entries && k != l && |l| <= |k| ==> Apart(entries[k], l))
  }

  /** Contents without brackets that are longer than every label are clean. */
  lemma LongPlainContentsAreClean(entries: map<string, string>)
    requires Labels(entries)
    requires forall k :: k in entries ==> NoBrackets(entries[k])
    requires forall k, l :: k in entries && l in entries ==> |l| < |entries[k]|
    ensures Clean(entries)
  {
    hide Bracketed, NoBrackets, Apart;
    forall k, l | k in entries && l in entries
      ensures Apart(entries[k], l)
    {
      LongPlainIsApart(entries[k], l);
    }
  }

  lemma LongPlainIsApart(content: string, l: string)
    requires NoBrackets(content) && Bracketed(l) && |l| < |content|
    ensures Apart(content, l)
  {
    forall i | 0 <= i < |content|
      ensures !(l <= content[i..]) && !(content[i..] <= l)
    {
      assert content[i..][0] == content[i];
    }
    forall j | 0 < j < |l|
      ensures !(l[j..] <= content)
    {
      assert l[j..][|l| - 1 - j] == ']';
      assert content[|l| - 1 - j] != ']';
    }
  }

  lemma PrefixLabelsAgree(text: string, a: string, b: string)
    requires Bracketed(a) && Bracketed(b) && a <= text && b <= text
    ensures a == b
  {
  }

  // ----- One step of each expansion -----

  lemma SimultaneousNothing(entries: map<string, string>)
    requires Labels(entries)
    ensures Simultaneous("", entries) == ""
  {
  }

  lemma SimultaneousStep(text: string, entries: map<string, string>, l: string)
    requires Labels(entries) && l in entries && l <= text
    ensures Simultaneous(text, entries) == entries[l] + Simultaneous(text[|l|..], entries)
  {
    var k := LabelAt(text, entries).value;
    PrefixLabelsAgree(text, k, l);
  }

  lemma SimultaneousPlain(text: string, entries: map<string, string>)
    requires Labels(entries) && text != "" && LabelAt(text, entries).None?
    ensures Simultaneous(text, entries) == [text[0]] + Simultaneous(text[1..], entries)
  {
  }

  /** Where no label begins, the text stays. */
  lemma {:induction false} SimultaneousSkips(plain: string, rest: string, entries: map<string, string>)
    requires Labels(entries) && forall i :: 0 <= i < |plain| ==> LabelAt(plain[i..] + rest, entries).None?
    ensures Simultaneous(plain + rest, entries) == plain + Simultaneous(rest, entries)
  {
    hide Simultaneous, LabelAt, Labels, Bracketed;
    if plain == "" {
      assert plain + rest == rest;
    } else {
      assert plain[0..] == plain;
      assert (plain + rest)[1..] == plain[1..] + rest;
      forall i | 0 <= i < |plain[1..]|
        ensures LabelAt(plain[1..][i..] + rest, entries).None?
      {
        assert plain[1..][i..] == plain[i + 1..];
      }
      SimultaneousPlain(plain + rest, entries);
      SimultaneousSkips(plain[1..], rest, entries);
    }
  }

  lemma NoBracketNoLabel(text: string, entries: map<string, string>)
    requires Labels(entries) && (text == "" || text[0] != '[')
    ensures LabelAt(text, entries).None?
  {
  }

  lemma SimultaneousSkipsPlain(plain: string, rest: string, entries: map<string, string>)
    requires Labels(entries) && forall i :: 0 <= i < |plain| ==> plain[i] != '['
    ensures Simultaneous(plain + rest, entries) == plain + Simultaneous(rest, entries)
  {
    hide Simultaneous, LabelAt, Labels, Bracketed;
    forall i | 0 <= i < |plain|
      ensures LabelAt(plain[i..] + rest, entries).None?
    {
      NoBracketNoLabel(plain[i..] + rest, entries);
    }
    SimultaneousSkips(plain, rest, entries);
  }

  lemma ReplaceShort(text: string, l: string, content: string)
    requires |text| < |l|
    ensures ReplaceAll(text, l, content) == text
  {
  }

  lemma ReplaceAtFront(l: string, rest: string, content: string)
    requires l != ""
    ensures ReplaceAll(l + rest, l, content) == content + ReplaceAll(rest, l, content)
  {
    assert (l + rest)[..|l|] == l && (l + rest)[|l|..] == rest;
  }

  lemma NoPrefixStep(c: char, rest: string, l: string, content: string)
    requires l != "" && !(l <= [c] + rest)
    ensures ReplaceAll([c] + rest, l, content) == [c] + ReplaceAll(rest, l, content)
  {
    assert ([c] + rest)[1..] == rest;
    if |rest| + 1 < |l| {
      ReplaceShort(rest, l, content);
    }
  }

  /** Where the label does not begin, the text stays. */
  lemma {:induction false} ReplaceSkips(plain: string, rest: string, l: string, content: string)
    requires l != "" && forall i :: 0 <= i < |plain| ==> !(l <= plain[i..] + rest)
    ensures ReplaceAll(plain + rest, l, content) == plain + ReplaceAll(rest, l, content)
  {
    hide ReplaceAll;
    if plain == "" {
      assert plain + rest == rest;
    } else {
      var tail := plain[1..];
      forall i | 0 <= i < |tail|
        ensures !(l <= tail[i..] + rest)
      {
        assert tail[i..] == plain[i + 1..];
      }
      ReplaceSkips(tail, rest, l, content);
      assert plain[0..] == plain == [plain[0]] + tail;
      ConcatAssociative([plain[0]], tail, rest);
      ConcatAssociative([plain[0]], tail, ReplaceAll(rest, l, content));
      NoPrefixStep(plain[0], tail + rest, l, content);
    }
  }

  lemma NotOverContent(tail: string, content: string, rest: string)
    requires !(tail <= content) && !(content <= tail)
    ensures !(tail <= content + rest)
  {
    if |tail| <= |content| {
      assert (content + rest)[..|tail|] == content[..|tail|];
    } else {
      assert (content + rest)[..|content|] == content;
    }
  }

  /** No label begins inside a content apart from it, whatever follows. */
  lemma ReplaceSkipsContent(content: string, rest: string, l: string, other: string)
    requires l != "" && Apart(content, l)
    ensures ReplaceAll(content + rest, l, other) == content + ReplaceAll(rest, l, other)
  {
    hide ReplaceAll;
    forall i | 0 <= i < |content|
      ensures !(l <= content[i..] + rest)
    {
      NotOverContent(l, content[i..], rest);
    }
    ReplaceSkips(content, rest, l, other);
  }

  lemma PrefixTail(l: string, c: char, rest: string)
    requires l != "" && l <= [c] + rest
    ensures l[0] == c && l[1..] <= rest
  {
    assert ([c] + rest)[1..] == rest;
  }

  lemma PrefixCons(l: string, text: string)
    requires l != "" && text != "" && l[0] == text[0] && l[1..] <= text[1..]
    ensures l <= text
  {
    assert l == [l[0]] + l[1..] && text == [text[0]] + text[1..];
  }

  // ----- One more label -----

  /** A new label that no content so far can bring up. */
  ghost predicate Joins(l: string, entries: map<string, string>) {
    && Labels(entries) && Bracketed(l) && l !in entries
    && (forall k :: k in entries ==> Apart(entries[k], l))
  }

  /** The tail of a label only comes out of the expansion where it was in the
      draft. */
  lemma {:induction false} TailWasThere(l: string, j: nat, text: string, entries: map<string, string>)
    requires Joins(l, entries) && 0 < j < |l| && l[j..] <= Simultaneous(text, entries)
    ensures l[j..] <= text
    decreases |text|
  {
    hide Bracketed, Simultaneous;
    if text == "" {
      SimultaneousNothing(entries);
    } else if LabelAt(text, entries).Some? {
      var k := LabelAt(text, entries).value;
      SimultaneousStep(text, entries, k);
      NotOverContent(l[j..], entries[k], Simultaneous(text[|k|..], entries));
    } else {
      SimultaneousPlain(text, entries);
      PrefixTail(l[j..], text[0], Simultaneous(text[1..], entries));
      assert l[j..][1..] == l[j + 1..];
      if j + 1 < |l| {
        TailWasThere(l, j + 1, text[1..], entries);
      }
      PrefixCons(l[j..], text);
    }
  }

  lemma LabelNotEmpty(l: string)
    requires Bracketed(l)
    ensures l != ""
  {
  }

  lemma JoinedLabels(l: string, entries: map<string, string>, content: string)
    requires Joins(l, entries)
    ensures l != "" && Labels(entries[l := content])
  {
  }

  /** Replacing one more label afterwards is replacing it along with the rest. */
  lemma {:induction false} OneMore(text: string, entries: map<string, string>, l: string, content: string)
    requires Joins(l, entries)
    ensures l != "" && Labels(entries[l := content])
    ensures ReplaceAll(Simultaneous(text, entries), l, content) == Simultaneous(text, entries[l := content])
    decreases |text|
  {
    hide Simultaneous, ReplaceAll, Bracketed, Apart;
    var all := entries[l := content];
    JoinedLabels(l, entries, content);
    if text == "" {
      SimultaneousNothing(entries);
      SimultaneousNothing(all);
      ReplaceShort("", l, content);
    } else if l <= text {
      OneMore(text[|l|..], entries, l, content);
      LabelReplaced(text, entries, l, content);
    } else if LabelAt(text, entries).Some? {
      var k := LabelAt(text, entries).value;
      LabelNotEmpty(k);
      OneMore(text[|k|..], entries, l, content);
      SimultaneousStep(text, entries, k);
      SimultaneousStep(text, all, k);
      ReplaceSkipsContent(entries[k], Simultaneous(text[|k|..], entries), l, content);
    } else {
      OneMore(text[1..], entries, l, content);
      CharKept(text, entries, l, content);
    }
  }

  lemma NoOtherLabel(text: string, entries: map<string, string>, l: string)
    requires Labels(entries) && Bracketed(l) && l !in entries && l <= text
    ensures LabelAt(text, entries).None?
  {
    hide Bracketed;
    forall k | k in entries
      ensures !(k <= text)
    {
      if k <= text {
        PrefixLabelsAgree(text, k, l);
      }
    }
  }

  lemma LabelReplaced(text: string, entries: map<string, string>, l: string, content: string)
    requires Joins(l, entries) && l != "" && Labels(entries[l := content]) && l <= text
    requires ReplaceAll(Simultaneous(text[|l|..], entries), l, content) == Simultaneous(text[|l|..], entries[l := content])
    ensures ReplaceAll(Simultaneous(text, entries), l, content) == Simultaneous(text, entries[l := content])
  {
    hide Simultaneous, ReplaceAll, LabelAt, Apart;
    var rest := text[|l|..];
    var out := Simultaneous(rest, entries);
    assert text[1..] == l[1..] + rest;
    NoOtherLabel(text, entries, l);
    SimultaneousPlain(text, entries);
    SimultaneousSkipsPlain(l[1..], rest, entries);
    assert [l[0]] + (l[1..] + out) == l + out;
    ReplaceAtFront(l, out, content);
    SimultaneousStep(text, entries[l := content], l);
  }

  /** The label did not come up in the expansion of the text behind this one
      character, so the character stays. */
  lemma CharKept(text: string, entries: map<string, string>, l: string, content: string)
    requires Joins(l, entries) && l != "" && Labels(entries[l := content]) && text != ""
    requires !(l <= text) && LabelAt(text, entries).None?
    requires ReplaceAll(Simultaneous(text[1..], entries), l, content) == Simultaneous(text[1..], entries[l := content])
    ensures ReplaceAll(Simultaneous(text, entries), l, content) == Simultaneous(text, entries[l := content])
  {
    hide Simultaneous, ReplaceAll, Bracketed, Apart;
    var out := Simultaneous(text[1..], entries);
    SimultaneousPlain(text, entries);
    assert LabelAt(text, entries[l := content]).None? by {
      assert forall k :: k in entries[l := content] ==> k == l || k in entries;
    }
    SimultaneousPlain(text, entries[l := content]);
    LabelStaysAway(text, entries, l);
    NoPrefixStep(text[0], out, l, content);
  }

  lemma LabelStaysAway(text: string, entries: map<string, string>, l: string)
    requires Joins(l, entries) && text != "" && !(l <= text)
    ensures !(l <= [text[0]] + Simultaneous(text[1..], entries))
  {
    hide Simultaneous, Apart;
    var out := Simultaneous(text[1..], entries);
    if l <= [text[0]] + out {
      PrefixTail(l, text[0], out);
      TailWasThere(l, 1, text[1..], entries);
      PrefixCons(l, text);
    }
  }

  // ----- Sequential expansion is simultaneous -----

  /** Every label once. */
  ghost predicate Ordering(order: seq<string>, entries: map<string, string>) {
    && (forall i, j :: 0 <= i < j < |order| ==> order[i] != order[j])
    && (forall l :: l in order <==> l in entries)
    && "" !in order
  }

  /** Longest labels first. */
  ghost predicate LongestFirst(order: seq<string>) {
    forall i, j :: 0 <= i < j < |order| ==> |order[j]| <= |order[i]|
  }

  ghost predicate Sorted(order: seq<string>, entries: map<string, string>) {
    Ordering(order, entries) && LongestFirst(order)
  }

  /** No content brings up a label that is replaced after its own. */
  ghost predicate NothingComesUp(order: seq<string>, entries: map<string, string>)
    requires forall l :: l in order ==> l in entries
  {
    forall i, j :: 0 <= i < j < |order| ==> Apart(entries[order[i]], order[j])
  }

  lemma CleanOrder(order: seq<string>, entries: map<string, string>)
    requires Clean(entries) && Sorted(order, entries)
    ensures NothingComesUp(order, entries)
  {
    hide Apart, Bracketed;
    forall i, j | 0 <= i < j < |order|
      ensures Apart(entries[order[i]], order[j])
    {
      assert order[i] in order && order[j] in order;
    }
  }

  lemma {:induction false} NothingToExpand(draft: string)
    ensures Simultaneous(draft, map[]) == draft
  {
    if draft != "" {
      NothingToExpand(draft[1..]);
    }
  }

  lemma SequentialStep(draft: string, order: seq<string>, entries: map<string, string>)
    requires order != [] && forall l :: l in order ==> l in entries && l != ""
    ensures order[0] in order && forall l :: l in order[1..] ==> l in order
    ensures Sequential(draft, order, entries)
            == Sequential(ReplaceAll(draft, order[0], entries[order[0]]), order[1..], entries)
  {
    hide ReplaceAll;
  }

  lemma SequentialDone(draft: string, order: seq<string>, entries: map<string, string>)
    requires order == []
    ensures Sequential(draft, order, entries) == draft
  {
  }

  /** `done` are the entries of the labels before position `n`. */
  ghost predicate DoneBefore(done: map<string, string>, n: nat, order: seq<string>, entries: map<string, string>) {
    && n <= |order|
    && (forall l :: l in done <==> l in order[..n])
    && (forall l :: l in done ==> l in entries && done[l] == entries[l])
  }

  lemma AllDone(done: map<string, string>, order: seq<string>, entries: map<string, string>)
    requires Ordering(order, entries) && DoneBefore(done, |order|, order, entries)
    ensures done == entries
  {
    assert order[..|order|] == order;
  }

  lemma NextDone(done: map<string, string>, n: nat, order: seq<string>, entries: map<string, string>)
    requires Ordering(order, entries) && DoneBefore(done, n, order, entries) && n < |order|
    ensures order[n] in entries && DoneBefore(done[order[n] := entries[order[n]]], n + 1, order, entries)
  {
    assert order[n] in order;
    assert order[..n + 1] == order[..n] + [order[n]];
  }

  lemma NextJoins(done: map<string, string>, n: nat, order: seq<string>, entries: map<string, string>)
    requires Labels(entries) && Ordering(order, entries) && NothingComesUp(order, entries)
    requires Labels(done) && DoneBefore(done, n, order, entries) && n < |order|
    ensures Joins(order[n], done)
  {
    hide Bracketed, Apart;
    assert order[n] in order;
    forall k | k in done
      ensures k != order[n] && Apart(done[k], order[n])
    {
      var i :| 0 <= i < n && order[..n][i] == k;
    }
  }

  lemma OrderingInside(order: seq<string>, n: nat, entries: map<string, string>)
    requires Ordering(order, entries) && n <= |order|
    ensures forall l :: l in order[n..] ==> l in order && l in entries && l != ""
  {
  }

  lemma {:induction false} SequentialFrom(draft: string, done: map<string, string>, n: nat, order: seq<string>,
                                          entries: map<string, string>)
    requires Labels(entries) && Ordering(order, entries) && NothingComesUp(order, entries)
    requires Labels(done) && DoneBefore(done, n, order, entries) && n <= |order|
    requires forall l :: l in order[n..] ==> l in entries && l != ""
    ensures Sequential(Simultaneous(draft, done), order[n..], entries) == Simultaneous(draft, entries)
    decreases |order| - n
  {
    hide Simultaneous, ReplaceAll, Bracketed, Apart, Sequential, Ordering, NothingComesUp, DoneBefore, Joins;
    if n == |order| {
      AllDone(done, order, entries);
      SequentialDone(Simultaneous(draft, done), order[n..], entries);
    } else {
      var l := order[n];
      NextDone(done, n, order, entries);
      NextJoins(done, n, order, entries);
      OneMore(draft, done, l, entries[l]);
      OrderingInside(order, n + 1, entries);
      assert order[n..][1..] == order[n + 1..];
      SequentialStep(Simultaneous(draft, done), order[n..], entries);
      SequentialFrom(draft, done[l := entries[l]], n + 1, order, entries);
    }
  }

  /** Replacing label after label equals replacing all at once, in every order
      in which no content brings up a label still to come. */
  lemma SequentialIsSimultaneous(draft: string, order: seq<string>, entries: map<string, string>)
    requires Labels(entries) && Ordering(order, entries) && NothingComesUp(order, entries)
    ensures Sequential(draft, order, entries) == Simultaneous(draft, entries)
  {
    hide Sequential, Simultaneous, Bracketed, Apart;
    NothingToExpand(draft);
    assert order[0..] == order;
    SequentialFrom(draft, map[], 0, order, entries);
  }

  // ----- Drafts as the user sees them -----

  datatype Piece = Typed(text: string) | Pasted(token: string)

  function Draft(pieces: seq<Piece>): string {
    if pieces == [] then ""
    else (match pieces[0] case Typed(text) => text case Pasted(token) => token) + Draft(pieces[1..])
  }

  /** Every pasted piece is stored. */
  ghost predicate Stored(pieces: seq<Piece>, entries: map<string, string>) {
    forall p :: p in pieces && p.Pasted? ==> p.token in entries
  }

  /** No stored label begins inside typed text. */
  ghost predicate Unambiguous(pieces: seq<Piece>, entries: map<string, string>) {
    pieces == []
    || (&& (pieces[0].Typed? ==>
              forall i :: 0 <= i < |pieces[0].text| ==>
                LabelAt(pieces[0].text[i..] + Draft(pieces[1..]), entries).None?)
        && Unambiguous(pieces[1..], entries))
  }

  /** The draft is these pieces, and only where one is pasted does a stored label
      begin. */
  ghost predicate Typeset(draft: string, pieces: seq<Piece>, entries: map<string, string>) {
    draft == Draft(pieces) && Stored(pieces, entries) && Unambiguous(pieces, entries)
  }

  function Submitted(pieces: seq<Piece>, entries: map<string, string>): string
    requires Stored(pieces, entries)
  {
    if pieces == [] then ""
    else (match pieces[0] case Typed(text) => text case Pasted(token) => entries[token])
         + Submitted(pieces[1..], entries)
  }

  /** What is submitted is the draft with every paste put back in its place. */
  lemma {:induction false} DraftIsPutBack(draft: string, pieces: seq<Piece>, entries: map<string, string>)
    requires Labels(entries) && Typeset(draft, pieces, entries)
    ensures Simultaneous(draft, entries) == Submitted(pieces, entries)
    decreases |pieces|
  {
    hide Simultaneous, Bracketed, LabelAt;
    if pieces == [] {
      SimultaneousNothing(entries);
    } else {
      var rest := Draft(pieces[1..]);
      assert pieces[0] in pieces;
      DraftIsPutBack(rest, pieces[1..], entries);
      match pieces[0]
      case Typed(text) => SimultaneousSkips(text, rest, entries);
      case Pasted(token) =>
        assert (token + rest)[|token|..] == rest;
        SimultaneousStep(token + rest, entries, token);
    }
  }

  // ----- Pruning -----

  /** `strings.Contains`. */
  predicate Contains(text: string, part: string) {
    part <= text || (text != "" && Contains(text[1..], part))
  }

  lemma {:induction false} ContainsLater(text: string, n: nat, part: string)
    requires n <= |text| && Contains(text[n..], part)
    ensures Contains(text, part)
  {
    if n == 0 {
      assert text[0..] == text;
    } else {
      assert text[1..][n - 1..] == text[n..];
      ContainsLater(text[1..], n - 1, part);
    }
  }

  lemma {:induction false} ContainsSomewhere(text: string, part: string) returns (i: nat)
    requires Contains(text, part)
    ensures i <= |text| && part <= text[i..]
  {
    if part <= text {
      i := 0;
      assert text[0..] == text;
    } else {
      var j := ContainsSomewhere(text[1..], part);
      i := j + 1;
      assert text[1..][j..] == text[i..];
    }
  }

  function Kept(entries: map<string, string>, draft: string): map<string, string> {
    map l | l in entries && Contains(draft, l) :: entries[l]
  }

  lemma {:induction false} MissingLabelsAreIdle(draft: string, kept: map<string, string>, entries: map<string, string>)
    requires Labels(entries) && Labels(kept)
    requires forall l :: l in kept ==> l in entries && kept[l] == entries[l]
    requires forall l :: l in entries && l !in kept ==> !Contains(draft, l)
    ensures Simultaneous(draft, kept) == Simultaneous(draft, entries)
    decreases |draft|
  {
    hide Bracketed, Labels, Simultaneous;
    if draft == "" {
      SimultaneousNothing(entries);
      SimultaneousNothing(kept);
    } else if LabelAt(draft, entries).Some? {
      var l := LabelAt(draft, entries).value;
      assert Contains(draft, l);
      LabelNonEmpty(entries, l);
      forall k | k in entries && k !in kept
        ensures !Contains(draft[|l|..], k)
      {
        if Contains(draft[|l|..], k) {
          ContainsLater(draft, |l|, k);
        }
      }
      MissingLabelsAreIdle(draft[|l|..], kept, entries);
      SimultaneousStep(draft, kept, l);
      SimultaneousStep(draft, entries, l);
    } else {
      MissingLabelsAreIdle(draft[1..], kept, entries);
      SimultaneousPlain(draft, entries);
      SimultaneousPlain(draft, kept);
    }
  }

  lemma LabelNonEmpty(entries: map<string, string>, l: string)
    requires Labels(entries) && l in entries
    ensures l != ""
  {
  }

  /** Dropping the labels that are gone from the draft does not change what the
      draft expands to. */
  lemma PruningKeepsExpansion(draft: string, entries: map<string, string>, order: seq<string>, pruned: seq<string>)
    requires Clean(entries) && Sorted(order, entries) && Sorted(pruned, Kept(entries, draft))
    ensures Sequential(draft, pruned, Kept(entries, draft)) == Sequential(draft, order, entries)
  {
    hide Sequential, Simultaneous, Bracketed, Apart, Contains, LongestFirst;
    var kept := Kept(entries, draft);
    assert Clean(kept);
    CleanOrder(order, entries);
    CleanOrder(pruned, kept);
    SequentialIsSimultaneous(draft, order, entries);
    SequentialIsSimultaneous(draft, pruned, kept);
    MissingLabelsAreIdle(draft, kept, entries);
  }

  // ----- Expansions that go wrong -----

  /** Every content is longer than its label, as every paste that becomes a
      placeholder is. */
  ghost predicate Long(entries: map<string, string>) {
    forall l :: l in entries ==> |l| < |entries[l]|
  }

  lemma {:induction false} TooShort(text: string, part: string)
    requires |text| < |part|
    ensures !Contains(text, part)
  {
    if text != "" {
      TooShort(text[1..], part);
    }
  }

  /** Replacing by something longer makes a text longer, or finds nothing. */
  lemma {:induction false} ReplaceGrows(text: string, l: string, content: string)
    requires 0 < |l| < |content|
    ensures |ReplaceAll(text, l, content)| >= |text|
    ensures if Contains(text, l) then |ReplaceAll(text, l, content)| > |text| else ReplaceAll(text, l, content) == text
    decreases |text|
  {
    if |text| < |l| {
      TooShort(text, l);
    } else if l <= text {
      ReplaceGrows(text[|l|..], l, content);
    } else {
      assert text == [text[0]] + text[1..];
      ReplaceGrows(text[1..], l, content);
      NoPrefixStep(text[0], text[1..], l, content);
    }
  }

  lemma {:induction false} ExpansionGrows(text: string, order: seq<string>, entries: map<string, string>)
    requires Long(entries) && forall l :: l in order ==> l in entries && l != ""
    ensures |Sequential(text, order, entries)| >= |text|
    ensures (exists l :: l in order && Contains(text, l)) ==> |Sequential(text, order, entries)| > |text|
    decreases |order|
  {
    hide Sequential, ReplaceAll, Contains;
    if order == [] {
      SequentialDone(text, order, entries);
    } else {
      var l, tail := order[0], order[1..];
      SequentialStep(text, order, entries);
      ReplaceGrows(text, l, entries[l]);
      ExpansionGrows(ReplaceAll(text, l, entries[l]), tail, entries);
      assert forall k :: k in order ==> k == l || k in tail;
    }
  }

  /** Labels that are not in the text are passed over. */
  lemma {:induction false} PassedOver(text: string, order: seq<string>, n: nat, entries: map<string, string>)
    requires Long(entries) && (forall l :: l in order ==> l in entries && l != "") && n <= |order|
    requires forall i :: 0 <= i < n ==> !Contains(text, order[i])
    ensures forall l :: l in order[n..] ==> l in order
    ensures Sequential(text, order, entries) == Sequential(text, order[n..], entries)
  {
    hide Sequential, ReplaceAll, Contains;
    if n == 0 {
      assert order[0..] == order;
    } else {
      PassedOver(text, order, n - 1, entries);
      SequentialStep(text, order[n - 1..], entries);
      ReplaceGrows(text, order[n - 1], entries[order[n - 1]]);
      assert order[n - 1..][1..] == order[n..];
    }
  }

  /** A text around one label in which no other label can begin. */
  ghost predicate Around(before: string, after: string) {
    && (forall i :: 0 <= i < |before| ==> before[i] != ']')
    && (forall i :: 0 < i < |before| ==> before[i] != '[')
    && (forall i :: 0 <= i < |after| ==> after[i] != '[')
  }

  lemma OnlyLabel(before: string, k: string, after: string, m: string, i: nat)
    requires Bracketed(k) && Around(before, after) && Bracketed(m) && i <= |before + k + after|
    requires m <= (before + k + after)[i..]
    ensures i == |before| && m == k
  {
    var text := before + k + after;
    assert text[i] == '[' by {
      assert text[i..][0] == m[0];
    }
    assert forall j :: 0 <= j < |before| ==> text[j] == before[j];
    assert forall j :: 0 <= j < |k| ==> text[|before| + j] == k[j];
    assert forall j :: |before| + |k| <= j < |text| ==> text[j] == after[j - |before| - |k|];
    assert forall j :: 0 <= j < |m| ==> text[i + j] == m[j];
    if i < |before| {
      NoLabelBefore(before, k, after, m, i);
    } else {
      assert k <= text[i..];
      PrefixLabelsAgree(text[i..], m, k);
    }
  }

  /** A label that began before `k` would close where `k` does, around its
      opening bracket. */
  lemma NoLabelBefore(before: string, k: string, after: string, m: string, i: nat)
    requires Bracketed(k) && Bracketed(m) && i < |before|
    requires forall j :: 0 <= j < |before| ==> before[j] != ']'
    ensures !(m <= (before + k + after)[i..])
  {
    var text := (before + k + after)[i..];
    assert text == before[i..] + k + after;
    assert forall j :: 0 <= j < |before| - i ==> text[j] == before[i + j];
    assert text[|before| - i] == '[';
    assert forall j :: |before| - i <= j < |before| - i + |k| ==> text[j] == k[j - (|before| - i)];
    if |m| - 1 < |before| - i {
      assert text[|m| - 1] != ']';
    } else if |m| <= |text| {
      assert text[|before| - i] != m[|before| - i];
    }
  }

  lemma OthersNotContained(before: string, k: string, after: string, m: string)
    requires Bracketed(k) && Around(before, after) && Bracketed(m) && m != k
    ensures !Contains(before + k + after, m)
  {
    hide Bracketed, Around;
    if Contains(before + k + after, m) {
      var i := ContainsSomewhere(before + k + after, m);
      OnlyLabel(before, k, after, m, i);
    }
  }

  lemma AroundSimultaneous(before: string, k: string, after: string, entries: map<string, string>)
    requires Labels(entries) && k in entries && Around(before, after)
    ensures Simultaneous(before + k + after, entries) == before + entries[k] + after
  {
    hide Simultaneous, Bracketed, Contains;
    var rest := k + after;
    ConcatAssociative(before, k, after);
    forall i | 0 <= i < |before|
      ensures LabelAt(before[i..] + rest, entries).None?
    {
      forall m | m in entries
        ensures !(m <= before[i..] + rest)
      {
        assert (before + k + after)[i..] == before[i..] + rest;
        NoLabelBefore(before, k, after, m, i);
      }
    }
    SimultaneousSkips(before, rest, entries);
    assert rest[|k|..] == after;
    SimultaneousStep(rest, entries, k);
    SimultaneousSkipsPlain(after, "", entries);
    SimultaneousNothing(entries);
    assert after + "" == after;
    ConcatAssociative(before, entries[k], after);
  }

  lemma AroundReplaced(before: string, k: string, after: string, content: string)
    requires Bracketed(k) && Around(before, after)
    ensures ReplaceAll(before + k + after, k, content) == before + content + after
  {
    hide ReplaceAll, Bracketed;
    var rest := k + after;
    LabelNotEmpty(k);
    ConcatAssociative(before, k, after);
    forall i | 0 <= i < |before|
      ensures !(k <= before[i..] + rest)
    {
      assert (before + k + after)[i..] == before[i..] + rest;
      NoLabelBefore(before, k, after, k, i);
    }
    ReplaceSkips(before, rest, k, content);
    ReplaceAtFront(k, after, content);
    NothingInAfter(k, after, content);
    ConcatAssociative(before, content, after);
  }

  lemma NothingInAfter(k: string, after: string, content: string)
    requires Bracketed(k) && forall i :: 0 <= i < |after| ==> after[i] != '['
    ensures ReplaceAll(after, k, content) == after
  {
    hide ReplaceAll;
    assert after + "" == after;
    ReplaceShort("", k, content);
    ReplaceSkips(after, "", k, content);
  }

  /** A content that is not apart from a shorter label can be put where it makes
      that label. */
  lemma OverlapWitness(content: string, l: string) returns (before: string, after: string)
    requires Bracketed(l) && !Apart(content, l) && |l| < |content|
    ensures Around(before, after) && Contains(before + content + after, l)
  {
    hide Around, Contains, Bracketed;
    if i :| 0 <= i < |content| && l <= content[i..] {
      before, after := "", "";
      LabelInside(content, l, i);
    } else if i :| 0 <= i < |content| && content[i..] <= l {
      before, after := "", l[|content| - i..];
      LabelAtEnd(content, l, i);
    } else {
      var j :| 0 < j < |l| && l[j..] <= content;
      before, after := l[..j], "";
      LabelAtStart(content, l, j);
    }
  }

  lemma LabelInside(content: string, l: string, i: nat)
    requires i < |content| && l <= content[i..]
    ensures Around("", "") && Contains("" + content + "", l)
  {
    assert "" + content + "" == content;
    ContainsLater(content, i, l);
  }

  lemma LabelAtEnd(content: string, l: string, i: nat)
    requires Bracketed(l) && i < |content| && content[i..] <= l
    ensures Around("", l[|content| - i..]) && Contains("" + content + l[|content| - i..], l)
  {
    var tail := l[|content| - i..];
    var text := "" + content + tail;
    assert content == content[..i] + content[i..];
    assert text[i..] == content[i..] + tail;
    assert content[i..] + tail == l;
    NothingAround(l);
    hide Bracketed;
    ContainsItself(l);
    ContainsLater(text, i, l);
  }

  lemma LabelAtStart(content: string, l: string, j: nat)
    requires Bracketed(l) && 0 < j < |l| && l[j..] <= content
    ensures Around(l[..j], "") && Contains(l[..j] + content + "", l)
  {
    var text := l[..j] + content + "";
    assert text[..|l|] == l[..j] + l[j..] == l;
  }

  lemma LongestExists(labels: set<string>)
    requires labels != {}
    ensures exists l :: l in labels && forall o :: o in labels ==> |o| <= |l|
  {
    var l :| l in labels;
    if labels != {l} {
      var rest := labels - {l};
      LongestExists(rest);
      var m :| m in rest && forall o :: o in rest ==> |o| <= |m|;
      assert forall o :: o in labels ==> o == l || o in rest;
      if |l| <= |m| {
        assert m in labels && forall o :: o in labels ==> |o| <= |m|;
      } else {
        assert l in labels && forall o :: o in labels ==> |o| <= |l|;
      }
    }
  }

  /** The labels, longest first, with `k` before all others of its length. */
  ghost predicate SortedBehind(order: seq<string>, labels: set<string>, k: string) {
    && (forall i, j :: 0 <= i < j < |order| ==> order[i] != order[j])
    && LongestFirst(order)
    && (forall l :: l in order <==> l in labels)
    && (forall i, j :: 0 <= i < j < |order| && order[j] == k ==> |k| < |order[i]|)
  }

  lemma SortedPrepend(m: string, rest: seq<string>, labels: set<string>, k: string)
    requires m in labels && (forall o :: o in labels ==> |o| <= |m|) && SortedBehind(rest, labels - {m}, k)
    requires k in labels && |k| == |m| ==> m == k
    ensures SortedBehind([m] + rest, labels, k)
  {
    var order := [m] + rest;
    assert forall l :: l in order <==> l == m || l in rest;
    forall i, j | 0 <= i < j < |order|
      ensures order[i] != order[j] && |order[j]| <= |order[i]| && (order[j] == k ==> |k| < |order[i]|)
    {
      assert order[j] == rest[j - 1] && rest[j - 1] in rest;
      assert i > 0 ==> order[i] == rest[i - 1];
    }
  }

  lemma {:induction false} SortedFrom(labels: set<string>, k: string) returns (order: seq<string>)
    ensures SortedBehind(order, labels, k)
    decreases |labels|
  {
    hide SortedBehind;
    if labels == {} {
      order := [];
      NothingSorted(labels, k);
    } else {
      LongestExists(labels);
      var m :| m in labels && forall o :: o in labels ==> |o| <= |m|;
      if k in labels && |k| == |m| {
        m := k;
      }
      var rest := SortedFrom(labels - {m}, k);
      order := [m] + rest;
      SortedPrepend(m, rest, labels, k);
    }
  }

  lemma NothingSorted(labels: set<string>, k: string)
    requires labels == {}
    ensures SortedBehind([], labels, k)
  {
  }

  lemma SortedBehindIsSorted(order: seq<string>, entries: map<string, string>, k: string)
    requires SortedBehind(order, entries.Keys, k) && "" !in entries
    ensures Sorted(order, entries)
  {
  }

  /** Unclean contents have a draft whose expansion, longest labels first, is
      not the simultaneous one, which it would be after pruning. */
  lemma UncleanDraft(entries: map<string, string>) returns (draft: string, order: seq<string>)
    requires Labels(entries) && Long(entries) && !Clean(entries)
    ensures Sorted(order, entries)
    ensures Sequential(draft, order, entries) != Simultaneous(draft, entries)
    ensures forall pruned :: Sorted(pruned, Kept(entries, draft)) ==>
              Sequential(draft, pruned, Kept(entries, draft)) == Simultaneous(draft, entries)
  {
    hide Bracketed, Apart, Contains, Sequential, Simultaneous, Around, SortedBehind, LongestFirst;
    var k, l :| k in entries && l in entries && k != l && |l| <= |k| && !Apart(entries[k], l);
    var before, after := OverlapWitness(entries[k], l);
    draft := before + k + after;
    NoEmptyLabel(entries);
    order := SortedFrom(entries.Keys, k);
    SortedBehindIsSorted(order, entries, k);
    AroundSimultaneous(before, k, after, entries);
    WitnessGrows(before, k, after, order, entries, l);
    var kept := Kept(entries, draft);
    assert Clean(kept) by {
      KeptAround(before, k, after, entries);
    }
    forall pruned | Sorted(pruned, kept)
      ensures Sequential(draft, pruned, kept) == Simultaneous(draft, entries)
    {
      CleanOrder(pruned, kept);
      SequentialIsSimultaneous(draft, pruned, kept);
      MissingLabelsAreIdle(draft, kept, entries);
    }
  }

  lemma NoEmptyLabel(entries: map<string, string>)
    requires Labels(entries)
    ensures "" !in entries
  {
  }

  lemma KeptAround(before: string, k: string, after: string, entries: map<string, string>)
    requires Labels(entries) && k in entries && Around(before, after)
    ensures var kept := Kept(entries, before + k + after);
            Labels(kept) && forall m :: m in kept ==> m == k
  {
    hide Bracketed, Contains, Around;
    forall m | m in entries && m != k
      ensures !Contains(before + k + after, m)
    {
      OthersNotContained(before, k, after, m);
    }
  }

  lemma WitnessGrows(before: string, k: string, after: string, order: seq<string>, entries: map<string, string>, l: string)
    requires Labels(entries) && Long(entries) && Ordering(order, entries) && Around(before, after)
    requires k in entries && l in entries && k != l && |l| <= |k| && Contains(before + entries[k] + after, l)
    requires SortedBehind(order, entries.Keys, k)
    ensures |Sequential(before + k + after, order, entries)| > |before + entries[k] + after|
  {
    hide Bracketed, Contains, Sequential, Around, ReplaceAll, SortedBehind, LongestFirst;
    var draft := before + k + after;
    var p :| 0 <= p < |order| && order[p] == k;
    forall i | 0 <= i < p
      ensures !Contains(draft, order[i])
    {
      assert order[i] in order;
      OthersNotContained(before, k, after, order[i]);
    }
    PassedOver(draft, order, p, entries);
    SequentialStep(draft, order[p..], entries);
    AroundReplaced(before, k, after, entries[k]);
    ComesBehind(order, entries.Keys, k, p, l);
    assert order[p..][1..] == order[p + 1..];
    ExpansionGrows(before + entries[k] + after, order[p + 1..], entries);
  }

  lemma ComesBehind(order: seq<string>, labels: set<string>, k: string, p: nat, l: string)
    requires SortedBehind(order, labels, k) && p < |order| && order[p] == k
    requires l in labels && l != k && |l| <= |k|
    ensures l in order[p + 1..]
  {
    var q :| 0 <= q < |order| && order[q] == l;
    assert p < q;
    assert order[p + 1..][q - p - 1] == l;
  }

  /** With contents longer than their labels, expansion replaces all labels at
      once for every draft and every order it may take exactly when contents are
      clean, and exactly then pruning never changes what a draft expands to. */
  lemma ExpansionExact(entries: map<string, string>)
    requires Labels(entries) && Long(entries)
    ensures Clean(entries)
       <==> forall draft, order :: Sorted(order, entries) ==>
              Sequential(draft, order, entries) == Simultaneous(draft, entries)
    ensures Clean(entries)
       <==> forall draft, order, pruned :: Sorted(order, entries) && Sorted(pruned, Kept(entries, draft)) ==>
              Sequential(draft, pruned, Kept(entries, draft)) == Sequential(draft, order, entries)
  {
    hide Bracketed, Apart, Sequential, Simultaneous, LongestFirst, Contains, SortedBehind;
    if Clean(entries) {
      forall draft, order | Sorted(order, entries)
        ensures Sequential(draft, order, entries) == Simultaneous(draft, entries)
      {
        CleanOrder(order, entries);
        SequentialIsSimultaneous(draft, order, entries);
      }
      forall draft, order, pruned | Sorted(order, entries) && Sorted(pruned, Kept(entries, draft))
        ensures Sequential(draft, pruned, Kept(entries, draft)) == Sequential(draft, order, entries)
      {
        PruningKeepsExpansion(draft, entries, order, pruned);
      }
    } else {
      var draft, order := UncleanDraft(entries);
      KeptLabels(entries, draft);
      var pruned := SortedFrom(Kept(entries, draft).Keys, "");
      SortedBehindIsSorted(pruned, Kept(entries, draft), "");
      assert Sequential(draft, pruned, Kept(entries, draft)) != Sequential(draft, order, entries);
    }
  }

  lemma KeptLabels(entries: map<string, string>, draft: string)
    requires Labels(entries)
    ensures "" !in Kept(entries, draft)
  {
  }

  // ----- A paste that quotes a label -----

  /** A paste that quotes another paste's label of the same length expands
      differently with the order, and with the other label pruned. */
  lemma NestedLabelsDisagree(a: string, b: string, x: string, y: string, content: string)
    requires Bracketed(a) && Bracketed(b) && a != b && |a| == |b| && content != b
    requires Around(x, y)
    ensures var entries := map[a := x + b + y, b := content];
            && Sequential(a, [a, b], entries) == x + content + y
            && Sequential(a, [b, a], entries) == x + b + y != x + content + y
            && Kept(entries, a) == map[a := x + b + y]
            && Sequential(a, [a], Kept(entries, a)) == x + b + y
            && !Clean(entries)
  {
    hide Bracketed, Contains, ReplaceAll, Sequential, Around, Apart;
    var quote := x + b + y;
    var entries := map[a := quote, b := content];
    LabelNotEmpty(a);
    LabelNotEmpty(b);
    NothingAround(a);
    NothingAround(quote);
    AroundReplaced("", a, "", quote);
    AroundReplaced(x, b, y, content);
    OthersNotContained("", a, "", b);
    NotContainedStays(a, b, content);
    Unfold2(a, a, b, entries);
    Unfold2(a, b, a, entries);
    ContainsItself(a);
    assert Kept(entries, a) == map[a := quote];
    Unfold1(a, a, Kept(entries, a));
    QuotesDiffer(x, b, y, content);
    QuotesAreNotApart(x, b, y);
  }

  lemma NothingAround(text: string)
    ensures Around("", "") && "" + text + "" == text
  {
  }

  lemma QuotesDiffer(x: string, b: string, y: string, content: string)
    requires content != b
    ensures x + b + y != x + content + y
  {
    assert (x + b + y)[|x|..|x| + |b|] == b;
    if |content| == |b| {
      assert (x + content + y)[|x|..|x| + |b|] == content;
    }
  }

  lemma ContainsItself(a: string)
    ensures Contains(a, a)
  {
  }

  lemma {:induction false} NotContainedStays(text: string, l: string, content: string)
    requires l != "" && !Contains(text, l)
    ensures ReplaceAll(text, l, content) == text
  {
    if |text| >= |l| {
      NotContainedStays(text[1..], l, content);
      assert text == [text[0]] + text[1..];
    }
  }

  lemma QuotesAreNotApart(x: string, b: string, y: string)
    requires b != ""
    ensures !Apart(x + b + y, b)
  {
    assert (x + b + y)[|x|..] == b + y;
  }

  lemma Unfold1(draft: string, a: string, entries: map<string, string>)
    requires a in entries && a != ""
    ensures Sequential(draft, [a], entries) == ReplaceAll(draft, a, entries[a])
  {
    hide ReplaceAll;
  }

  lemma Unfold2(draft: string, a: string, b: string, entries: map<string, string>)
    requires a in entries && b in entries && a != "" && b != ""
    ensures Sequential(draft, [a, b], entries) == ReplaceAll(ReplaceAll(draft, a, entries[a]), b, entries[b])
  {
    hide ReplaceAll;
    assert [a, b][1..] == [b];
    Unfold1(ReplaceAll(draft, a, entries[a]), b, entries);
  }

  /** Two pastes of one length above the threshold, the second quoting the label
      of the first: a store the program can reach. */
  lemma QuotedPasteDisagrees(x: string, y: string, content: string)
    requires PasteThreshold <= |content| == |x| + |Label(|content|, 1)| + |y| && content != Label(|content|, 1)
    requires Around(x, y)
    ensures var first, second := Label(|content|, 1), Label(|content|, 2);
            var entries := map[second := x + first + y, first := content];
            && Numbered(entries, 2)
            && first != second && Sequential(second, [second, first], entries) == x + content + y
            && Sequential(second, [first, second], entries) == x + first + y != x + content + y
            && |first| == |second|
            && Kept(entries, second) == map[second := x + first + y]
            && Sequential(second, [second], Kept(entries, second)) == x + first + y
  {
    var n := |content|;
    SameDigits(n);
    hide Label, Bracketed, Contains, Sequential, Numeral;
    var first, second := Label(n, 1), Label(n, 2);
    LabelIsBracketed(n, 1);
    LabelIsBracketed(n, 2);
    if first == second {
      LabelsDiffer(n, 1, n, 2);
    }
    LabelNotEmpty(first);
    LabelNotEmpty(second);
    assert |x + first + y| == n;
    NestedLabelsDisagree(second, first, x, y, content);
  }

  lemma SameDigits(n: nat)
    ensures |Label(n, 1)| == |Label(n, 2)|
  {
    assert |Numeral(1)| == |Numeral(2)|;
  }

  // ----- The store -----

  /** The labels picked so far, longest first, none shorter than one still
      remaining. */
  ghost predicate Picked(labels: seq<string>, remaining: set<string>, entries: map<string, string>) {
    && (forall i, j :: 0 <= i < j < |labels| ==> labels[i] != labels[j])
    && (forall l :: l in entries <==> l in labels || l in remaining)
    && (forall l :: l in remaining ==> l !in labels)
    && (forall l, o :: l in labels && o in remaining ==> |o| <= |l|)
    && LongestFirst(labels) && "" !in entries
  }

  lemma PickNext(labels: seq<string>, remaining: set<string>, entries: map<string, string>, l: string)
    requires Picked(labels, remaining, entries)
    requires l in remaining && forall o :: o in remaining ==> |o| <= |l|
    ensures Picked(labels + [l], remaining - {l}, entries)
  {
    var more := labels + [l];
    assert forall k :: k in more <==> k in labels || k == l;
    forall i, j | 0 <= i < j < |more|
      ensures more[i] != more[j] && |more[j]| <= |more[i]|
    {
      assert more[i] in labels;
    }
  }

  lemma PickedAtEnds(labels: seq<string>, entries: map<string, string>)
    ensures "" !in entries ==> Picked([], entries.Keys, entries)
    ensures Picked(labels, {}, entries) ==> Sorted(labels, entries)
  {
  }

  method ReplaceInOrder(draft: string, labels: seq<string>, entries: map<string, string>) returns (text: string)
    requires forall l :: l in labels ==> l in entries && l != ""
    ensures text == Sequential(draft, labels, entries)
  {
    hide Sequential, ReplaceAll, Bracketed;
    text := draft;
    var i := 0;
    while i < |labels|
      invariant 0 <= i <= |labels|
      invariant forall l :: l in labels[i..] ==> l in labels
      invariant Sequential(text, labels[i..], entries) == Sequential(draft, labels, entries)
    {
      SequentialStep(text, labels[i..], entries);
      assert labels[i..][1..] == labels[i + 1..];
      text := ReplaceAll(text, labels[i], entries[labels[i]]);
      i := i + 1;
    }
    SequentialDone(text, labels[i..], entries);
  }

  /** Every label names the length of its content and a number given out. */
  ghost predicate Numbered(entries: map<string, string>, next: nat) {
    forall l :: l in entries ==> exists number: nat :: number <= next && l == Label(|entries[l]|, number)
  }

  /** What the program stores: pastes above the threshold, with lengths and
      numbers that fit a machine word. */
  ghost predicate Reached(entries: map<string, string>, next: nat) {
    Numbered(entries, next) && next < Power10(19)
    && forall l :: l in entries ==> PasteThreshold <= |entries[l]| < Power10(19)
  }

  /** Such contents are always longer than every label. */
  lemma PastesAreLong(entries: map<string, string>, next: nat)
    requires Reached(entries, next)
    ensures Labels(entries) && Long(entries)
    ensures forall k, l :: k in entries && l in entries ==> |l| < |entries[k]|
  {
    hide Label, Power10, Bracketed;
    forall l | l in entries
      ensures Bracketed(l) && |l| < PasteThreshold
    {
      var number: nat :| number <= next && l == Label(|entries[l]|, number);
      LabelIsBracketed(|entries[l]|, number);
      LabelsAreShort(|entries[l]|, number);
    }
  }

  /** Plain text is always clean. */
  lemma PlainPastesAreClean(entries: map<string, string>, next: nat)
    requires Reached(entries, next) && forall l :: l in entries ==> NoBrackets(entries[l])
    ensures Clean(entries)
  {
    hide Reached, Bracketed, NoBrackets, Clean;
    PastesAreLong(entries, next);
    LongPlainContentsAreClean(entries);
  }

  class Store {
    var next: nat
    var entries: map<string, string>

    ghost predicate Valid()
      reads this
    {
      Numbered(entries, next)
    }

    constructor ()
      ensures Valid() && next == 0 && entries == map[]
    {
      next, entries := 0, map[];
    }

    /** A new label: no stored paste is overwritten. */
    method Register(content: string) returns (token: string)
      requires Valid()
      modifies this
      ensures Valid() && token == Label(|content|, next) && next == old(next) + 1
      ensures token !in old(entries) && entries == old(entries)[token := content]
    {
      hide Label;
      next := next + 1;
      token := Label(|content|, next);
      ghost var added := token;
      ghost var number := next;
      forall l | l in entries
        ensures l != added
      {
        var older: nat :| older < number && l == Label(|entries[l]|, older);
        if l == added {
          LabelsDiffer(|entries[l]|, older, |content|, number);
        }
      }
      entries := entries[token := content];
    }

    lemma StoredAreLabels()
      requires Valid()
      ensures Labels(entries)
    {
      hide Label, Bracketed;
      forall l | l in entries
        ensures Bracketed(l)
      {
        var number: nat :| number <= next && l == Label(|entries[l]|, number);
        LabelIsBracketed(|entries[l]|, number);
      }
    }

    /** The stored labels, longest first. */
    method SortedLabels() returns (labels: seq<string>)
      requires "" !in entries
      ensures Sorted(labels, entries)
    {
      hide Picked, Sorted;
      labels := [];
      var remaining := entries.Keys;
      PickedAtEnds(labels, entries);
      while remaining != {}
        invariant Picked(labels, remaining, entries)
        decreases |remaining|
      {
        LongestExists(remaining);
        var l :| l in remaining && forall o :: o in remaining ==> |o| <= |l|;
        PickNext(labels, remaining, entries, l);
        labels := labels + [l];
        remaining := remaining - {l};
      }
      PickedAtEnds(labels, entries);
    }

    /** Replaces every stored label by its content: with clean contents, puts
        every paste back in its place. */
    method Expand(draft: string) returns (text: string, ghost order: seq<string>)
      requires Valid()
      ensures Sorted(order, entries) && Labels(entries)
      ensures text == Sequential(draft, order, entries)
      ensures Clean(entries) ==> text == Simultaneous(draft, entries)
      ensures Clean(entries) ==> forall pieces :: Typeset(draft, pieces, entries) ==> text == Submitted(pieces, entries)
    {
      hide Sequential, ReplaceAll, Simultaneous, Bracketed, Apart, Draft, Submitted, Unambiguous, Stored, Clean, Labels;
      StoredAreLabels();
      NoEmptyLabel(entries);
      var labels := SortedLabels();
      order := labels;
      if Clean(entries) {
        CleanOrder(order, entries);
        SequentialIsSimultaneous(draft, order, entries);
      }
      text := ReplaceInOrder(draft, labels, entries);
      forall pieces | Clean(entries) && Typeset(draft, pieces, entries)
        ensures text == Submitted(pieces, entries)
      {
        DraftIsPutBack(draft, pieces, entries);
      }
    }

    /** Drops the pastes whose label is gone from the draft. */
    method PruneMissing(draft: string)
      requires Valid()
      modifies this`entries
      ensures Valid() && entries == Kept(old(entries), draft)
    {
      hide Contains, Label;
      var before, remaining := entries, entries.Keys;
      while remaining != {}
        invariant remaining <= before.Keys
        invariant forall l :: l in entries ==> l in before && entries[l] == before[l]
        invariant forall l :: l in before ==> (l in entries <==> l in remaining || Contains(draft, l))
        decreases |remaining|
      {
        var l :| l in remaining;
        remaining := remaining - {l};
        if !Contains(draft, l) {
          entries := entries - {l};
        }
      }
    }

    /** Nothing pasted so far is ever expanded again. */
    method Reset()
      modifies this
      ensures Valid() && next == 0
      ensures Labels(entries) && forall draft :: Simultaneous(draft, entries) == draft
    {
      next, entries := 0, map[];
      forall draft
        ensures Simultaneous(draft, entries) == draft
      {
        NothingToExpand(draft);
      }
    }
  }
}

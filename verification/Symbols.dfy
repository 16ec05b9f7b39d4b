/** The table of symbols: a name is a number from 1 up, and only its first 31 characters count. */
module Symbols {

  const SYMBOL_LENGTH: nat := 31
  const START_SIZE: nat := 100

  function Cut(text: string): (r: string)
    ensures |r| <= SYMBOL_LENGTH
  {
    if |text| <= SYMBOL_LENGTH then text else text[..SYMBOL_LENGTH]
  }

  /** The names given out so far, from symbol 1 on, are short enough and all different. */
  predicate Good(names: seq<string>) {
    && (forall i | 0 <= i < |names| :: |names[i]| <= SYMBOL_LENGTH)
    && forall i, j | 0 <= i < j < |names| :: names[i] != names[j]
  }

  function IndexOf(names: seq<string>, name: string): (i: nat)
    ensures i <= |names| && (i < |names| ==> names[i] == name)
    ensures forall j | 0 <= j < i :: names[j] != name
  {
    if names == [] || names[0] == name then 0 else 1 + IndexOf(names[1..], name)
  }

  /** Ask for a symbol while loading: the one the name has, or the next. */
  function Intern(names: seq<string>, text: string): (r: (seq<string>, nat)) {
    var i := IndexOf(names, Cut(text));
    (if i < |names| then names else names + [Cut(text)], i + 1)
  }

  function InternAll(names: seq<string>, texts: seq<string>): (r: seq<string>)
    decreases |texts|
  {
    if texts == [] then names else InternAll(Intern(names, texts[0]).0, texts[1..])
  }

  lemma {:induction false} InternAllKeeps(names: seq<string>, texts: seq<string>)
    requires Good(names)
    ensures Good(InternAll(names, texts)) && names <= InternAll(names, texts)
    decreases |texts|
  {
    if texts == [] {
    } else {
      InternAllKeeps(Intern(names, texts[0]).0, texts[1..]);
    }
  }

  /** Two texts are cut alike exactly when they are the same, or both have 31 characters or more and the
      same first 31. */
  lemma SameCutIff(a: string, b: string)
    ensures Cut(a) == Cut(b) <==> a == b || (|a| >= 31 && |b| >= 31 && a[..31] == b[..31])
  {
    if |a| <= 31 { assert a[..|a|] == a; }
    if |b| <= 31 { assert b[..|b|] == b; }
  }

  /** However many names are asked for in between, two texts have the same symbol exactly when they are
      the same, or agree in their first 31 characters. */
  lemma SameSymbolIff(names: seq<string>, a: string, between: seq<string>, b: string)
    requires Good(names)
    ensures var (n1, x) := Intern(names, a);
            var n2 := InternAll(n1, between);
            Intern(n2, b).1 == x <==> a == b || (|a| >= 31 && |b| >= 31 && a[..31] == b[..31])
  {
    var (n1, x) := Intern(names, a);
    InternAllKeeps(names, [a]);
    assert InternAll(names, [a]) == n1 by { assert InternAll(n1, [a][1..]) == n1; }
    InternAllKeeps(n1, between);
    var n2 := InternAll(n1, between);
    assert n1[x - 1] == Cut(a) && n2[x - 1] == Cut(a);
    SameCutIff(a, b);
  }

  // ---------------------------------------------------------------- what was given to whom

  ghost predicate HasText(given: map<string, nat>, sym: nat) { exists a :: a in given && given[a] == sym }

  /** The names are those of the texts that were given symbols. */
  ghost predicate Kept(names: seq<string>, given: map<string, nat>) {
    && (forall a | a in given :: 0 < given[a] <= |names| && names[given[a] - 1] == Cut(a))
    && forall sym: nat | 0 < sym <= |names| :: HasText(given, sym)
  }

  /** A symbol is that of the texts that are the same, or have the same first 31 characters. */
  ghost predicate SharedBy(given: map<string, nat>, text: string, sym: nat) {
    forall a | a in given ::
      given[a] == sym <==> a == text || (|a| >= 31 && |text| >= 31 && a[..31] == text[..31])
  }

  lemma InternKeeps(names: seq<string>, given: map<string, nat>, text: string)
    requires Good(names) && Kept(names, given)
    ensures var (n, sym) := Intern(names, text);
            && Good(n) && Kept(n, given[text := sym]) && 0 < sym <= |n| && n[sym - 1] == Cut(text)
            && SharedBy(given, text, sym)
  {
    hide HasText, Cut;
    var (n, sym) := Intern(names, text);
    InternAllOne(names, text);
    var now := given[text := sym];
    forall k: nat | 0 < k <= |n| ensures HasText(now, k) { TextKept(names, given, text, k); }
    InternShared(names, given, text);
  }

  lemma InternAllOne(names: seq<string>, text: string)
    requires Good(names)
    ensures var (n, sym) := Intern(names, text);
            Good(n) && names <= n && 0 < sym <= |n| && n[sym - 1] == Cut(text)
  {
  }

  lemma InternShared(names: seq<string>, given: map<string, nat>, text: string)
    requires Good(names) && Kept(names, given)
    ensures SharedBy(given, text, Intern(names, text).1)
  {
    hide HasText;
    var (n, sym) := Intern(names, text);
    InternAllOne(names, text);
    forall a | a in given ensures n[given[a] - 1] == Cut(a) && (Cut(a) == Cut(text) <==> given[a] == sym) {
      SameCutIff(a, text);
    }
    forall a | a in given { SameCutIff(a, text); }
  }

  lemma TextKept(names: seq<string>, given: map<string, nat>, text: string, k: nat)
    requires Good(names) && Kept(names, given)
    ensures var (n, sym) := Intern(names, text);
            0 < k <= |n| ==> HasText(given[text := sym], k)
  {
    var (n, sym) := Intern(names, text);
    if k == sym {
      assert given[text := sym][text] == k;
    } else if 0 < k <= |n| {
      assert HasText(given, k);
      var a :| a in given && given[a] == k;
      assert n[k - 1] == Cut(a) && a != text;
      assert given[text := sym][a] == k;
    }
  }

  lemma SharedMeans(given: map<string, nat>, text: string, sym: nat)
    requires SharedBy(given, text, sym)
    ensures forall a | a in given ::
              given[a] == sym <==> a == text || (|a| >= 31 && |text| >= 31 && a[..31] == text[..31])
  {
  }

  lemma FoundShared(names: seq<string>, given: map<string, nat>, text: string)
    requires Good(names) && Kept(names, given)
    ensures var i := IndexOf(names, Cut(text));
            var sym := if i < |names| then i + 1 else 0;
            SharedBy(given, text, sym) && (sym > 0 ==> HasText(given, sym))
  {
    forall a | a in given { SameCutIff(a, text); }
  }

  class SymbolTable {
    var symbols: array<string>
    var size: nat
    var running: bool
    /** Every text a symbol was ever given to, and the symbol. */
    ghost var given: map<string, nat>

    /** Entry 0 is never used; before the first name there is no table at all. */
    ghost predicate Valid()
      reads this, symbols
    {
      && size <= symbols.Length && (size == 0 <==> symbols.Length == 0)
      && Good(Names()) && Kept(Names(), given)
    }

    ghost function Names(): (r: seq<string>)
      reads this, symbols
      requires size <= symbols.Length
    {
      if size == 0 then [] else symbols[1..size]
    }

    constructor ()
      ensures Valid() && Names() == [] && given == map[] && !running && fresh(symbols)
    {
      symbols := new string[0];
      size, running, given := 0, false, map[];
    }

    method FindSymbol(text: string) returns (sym: nat)
      requires Valid()
      ensures var i := IndexOf(Names(), Cut(text));
              sym == if i < |Names()| then i + 1 else 0
    {
      var i := 1;
      while i < size
        invariant 1 <= i && (size > 0 ==> i <= size)
        invariant forall j | 0 <= j < i - 1 && j < |Names()| :: Names()[j] != Cut(text)
      {
        if symbols[i] == Cut(text) {
          assert Names()[i - 1] == Cut(text);
          return i;
        }
        i := i + 1;
      }
      return 0;
    }

    /** Room for one more: a table to begin with, or one twice the size. */
    method MakeRoom()
      requires Valid()
      modifies this
      ensures Valid() && 0 < size < symbols.Length && Names() == old(Names())
      ensures running == old(running) && given == old(given)
      ensures symbols == old(symbols) || fresh(symbols)
    {
      if symbols.Length == 0 {
        symbols := new string[START_SIZE](i => "");
        size := 1;
        assert Names() == [];
      } else if symbols.Length == size {
        var more := new string[2 * symbols.Length](i => "");
        var i := 0;
        while i < size
          invariant i <= size
          invariant forall j | 0 <= j < i :: more[j] == symbols[j]
          modifies more
        {
          more[i] := symbols[i];
          i := i + 1;
        }
        assert more[1..size] == symbols[1..size];
        symbols := more;
      }
    }

    /** While loading every text gets a symbol; while running only those get one that share it with a text
        that had it then.  Either way it is the symbol of every text so far that is the same, or has the
        same first 31 characters, and of no other. */
    method GetSymbol(text: string) returns (sym: nat)
      requires Valid()
      modifies this, symbols
      ensures Valid() && running == old(running)
      ensures !running ==> (Names(), sym) == Intern(old(Names()), text)
      ensures running ==> Names() == old(Names())
      ensures running ==> var i := IndexOf(Names(), Cut(text)); sym == if i < |Names()| then i + 1 else 0
      ensures given == if running then old(given) else old(given)[text := sym]
      ensures !running ==> sym > 0
      ensures running && sym > 0 ==> HasText(given, sym)
      ensures forall a | a in old(given) ::
                old(given)[a] == sym <==> a == text || (|a| >= 31 && |text| >= 31 && a[..31] == text[..31])
    {
      hide Kept, SharedBy, Good, Cut, HasText;
      ghost var names, before := Names(), given;
      if running {
        sym := FindSymbol(text);
        FoundShared(names, before, text);
        SharedMeans(before, text, sym);
        return;
      }
      InternKeeps(names, before, text);
      MakeRoom();
      sym := FindSymbol(text);
      if sym == 0 {
        sym := size;
        symbols[size] := Cut(text);
        size := size + 1;
        assert Names() == names + [Cut(text)];
      }
      given := before[text := sym];
      SharedMeans(before, text, sym);
    }
  }
}

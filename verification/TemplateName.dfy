/** The template-name parser of kernel/crypto/algboss.c (cryptomgr_schedule_probe) and the names it
    reads, such as authenc(hmac(sha1),cbc(aes)). */
module TemplateName {
  import opened ListOps

  const MAX_ATTRS: nat := 32

  // ----- characters (lib/ctype.c) -----

  predicate IsDigit(c: char) {
    '0' <= c <= '9'
  }

  predicate IsAlnum(c: char) {
    IsDigit(c) || 'A' <= c <= 'Z' || 'a' <= c <= 'z' ||
    (192 <= c as int <= 255 && c as int != 215 && c as int != 247)
  }

  predicate IsWord(c: char) {
    IsAlnum(c) || c == '-' || c == '_'
  }

  predicate AllWord(s: string) {
    forall i :: 0 <= i < |s| ==> IsWord(s[i])
  }

  predicate AllDigits(s: string) {
    forall i :: 0 <= i < |s| ==> IsDigit(s[i])
  }

  /** *p, which is NUL at the end of the name. */
  function At(s: string, p: nat): char {
    if p < |s| then s[p] else '\0'
  }

  // ----- names -----

  /** A plain identifier, or a template applied to arguments. */
  datatype Name = Plain(id: string) | Applied(id: string, args: seq<Name>)

  function Print(n: Name): string
    decreases n
  {
    match n
    case Plain(id) => id
    case Applied(id, args) => id + "(" + PrintArgs(args) + ")"
  }

  function PrintArgs(args: seq<Name>): string
    decreases args
  {
    if args == [] then ""
    else if |args| == 1 then Print(args[0])
    else Print(args[0]) + "," + PrintArgs(args[1..])
  }

  predicate NameOk(n: Name)
    decreases n
  {
    n.id != [] && AllWord(n.id) && (n.Applied? ==> forall i :: 0 <= i < |n.args| ==> NameOk(n.args[i]))
  }

  /** An attribute handed to the template: a number or the name of an algorithm. */
  datatype Attr = Number(digits: string) | Algorithm(name: string)

  /** A template and its attributes. */
  datatype Probe = Probe(template: string, attrs: seq<Attr>)

  function Classified(n: Name): Attr {
    if n.Plain? && AllDigits(n.id) then Number(n.id) else Algorithm(Print(n))
  }

  // ----- the parser, on what is left of the text -----

  function WordLen(s: string): (k: nat)
    ensures k <= |s| && AllWord(s[..k]) && (k < |s| ==> !IsWord(s[k]))
  {
    if s == [] || !IsWord(s[0]) then 0 else 1 + WordLen(s[1..])
  }

  /** The text up to and including the parenthesis that closes r + 1 open ones. */
  function ScanLen(s: string, r: nat): (k: Option<nat>)
    ensures k.Some? ==> 0 < k.value <= |s|
  {
    if s == [] || s[0] == '\0' then None
    else if s[0] == '(' then Longer(1, ScanLen(s[1..], r + 1))
    else if s[0] == ')' then if r == 0 then Some(1) else Longer(1, ScanLen(s[1..], r - 1))
    else Longer(1, ScanLen(s[1..], r))
  }

  function Longer(n: nat, k: Option<nat>): Option<nat> {
    if k.Some? then Some(n + k.value) else None
  }

  /** The first argument in s: its length and kind. */
  function FirstArg(s: string): (a: Option<Attr>)
    ensures a.Some? ==> 0 < |Text(a.value)| <= |s|
  {
    var w := WordLen(s);
    if At(s, w) == '(' then
      var k := ScanLen(s[w + 1..], 0);
      if k.Some? then Some(Algorithm(s[..w + 1 + k.value])) else None
    else if w == 0 then None
    else if AllDigits(s[..w]) then Some(Number(s[..w]))
    else Some(Algorithm(s[..w]))
  }

  function Text(a: Attr): string {
    match a
    case Number(digits) => digits
    case Algorithm(name) => name
  }

  /** The arguments in s, when i have been read before. */
  function Args(s: string, i: nat): Option<seq<Attr>> {
    var a := FirstArg(s);
    if a.None? || i + 1 >= MAX_ATTRS then None
    else
      var n := |Text(a.value)|;
      if At(s, n) == ')' then Some([a.value])
      else if At(s, n) == ',' then
        var rest := Args(s[n + 1..], i + 1);
        if rest.Some? then Some([a.value] + rest.value) else None
      else None
  }

  function Parse(s: string): Option<Probe> {
    var w := WordLen(s);
    if w == 0 || At(s, w) != '(' then None
    else
      var args := Args(s[w + 1..], 0);
      if args.Some? then Some(Probe(s[..w], args.value)) else None
  }

  // ----- round trip -----

  /** Scanning passes over x without losing count of the parentheses. */
  ghost predicate Neutral(x: string) {
    forall t: string, r: nat :: ScanLen(x + t, r) == Longer(|x|, ScanLen(t, r))
  }

  lemma NeutralAt(x: string, t: string, r: nat)
    requires Neutral(x)
    ensures ScanLen(x + t, r) == Longer(|x|, ScanLen(t, r))
  {
    hide ScanLen;
  }

  lemma NeutralConcat(x: string, y: string)
    requires Neutral(x) && Neutral(y)
    ensures Neutral(x + y)
  {
    forall t: string, r: nat ensures ScanLen(x + y + t, r) == Longer(|x + y|, ScanLen(t, r)) {
      hide Neutral, ScanLen;
      assert x + y + t == x + (y + t);
      NeutralAt(x, y + t, r);
      NeutralAt(y, t, r);
    }
  }

  lemma ScanFirst(c: char, t: string, r: nat)
    requires c != '\0'
    ensures ScanLen([c] + t, r) ==
            if c == '(' then Longer(1, ScanLen(t, r + 1))
            else if c == ')' then if r == 0 then Some(1) else Longer(1, ScanLen(t, r - 1))
            else Longer(1, ScanLen(t, r))
  {
    assert ([c] + t)[1..] == t;
  }

  lemma NeutralChar(c: char)
    requires c != '(' && c != ')' && c != '\0'
    ensures Neutral([c])
  {
    forall t: string, r: nat ensures ScanLen([c] + t, r) == Longer(1, ScanLen(t, r)) {
      ScanFirst(c, t, r);
    }
  }

  lemma {:induction false} NeutralWord(x: string)
    requires AllWord(x)
    ensures Neutral(x)
  {
    if x == [] {
      forall t: string, r: nat ensures ScanLen(x + t, r) == Longer(0, ScanLen(t, r)) {
        assert x + t == t;
      }
    } else {
      NeutralChar(x[0]);
      NeutralWord(x[1..]);
      NeutralConcat([x[0]], x[1..]);
      assert [x[0]] + x[1..] == x;
    }
  }

  lemma NeutralEnclosed(x: string)
    requires Neutral(x)
    ensures Neutral("(" + x + ")")
  {
    var y := "(" + x + ")";
    forall t: string, r: nat ensures ScanLen(y + t, r) == Longer(|y|, ScanLen(t, r)) {
      hide Neutral, ScanLen;
      assert y + t == ['('] + (x + ([')'] + t));
      ScanFirst('(', x + ([')'] + t), r);
      NeutralAt(x, [')'] + t, r + 1);
      ScanFirst(')', t, r + 1);
    }
  }

  lemma {:induction false} NeutralName(n: Name)
    requires NameOk(n)
    ensures Neutral(Print(n))
    decreases n
  {
    NeutralWord(n.id);
    if n.Applied? {
      NeutralArgs(n.args);
      NeutralEnclosed(PrintArgs(n.args));
      NeutralConcat(n.id, "(" + PrintArgs(n.args) + ")");
      assert n.id + ("(" + PrintArgs(n.args) + ")") == Print(n);
    }
  }

  lemma {:induction false} NeutralArgs(args: seq<Name>)
    requires forall i :: 0 <= i < |args| ==> NameOk(args[i])
    ensures Neutral(PrintArgs(args))
    decreases args
  {
    if args == [] {
      NeutralWord("");
    } else {
      NeutralName(args[0]);
      if |args| > 1 {
        NeutralChar(',');
        NeutralArgs(args[1..]);
        NeutralConcat(Print(args[0]), ",");
        NeutralConcat(Print(args[0]) + ",", PrintArgs(args[1..]));
      }
    }
  }

  lemma {:induction false} WordLenConcat(x: string, t: string)
    requires AllWord(x) && (t != [] ==> !IsWord(t[0]))
    ensures WordLen(x + t) == |x|
  {
    if x == [] {
      assert x + t == t;
    } else {
      assert (x + t)[1..] == x[1..] + t;
      WordLenConcat(x[1..], t);
    }
  }

  /** The parser reads a printed argument as one piece. */
  lemma FirstArgPrinted(n: Name, t: string)
    requires NameOk(n) && t != [] && (t[0] == ',' || t[0] == ')')
    ensures FirstArg(Print(n) + t) == Some(Classified(n))
    ensures Text(Classified(n)) == Print(n)
  {
    hide ScanLen, WordLen, Neutral, PrintArgs;
    var s := Print(n) + t;
    if n.Plain? {
      WordLenConcat(n.id, t);
      assert s[..|n.id|] == n.id;
    } else {
      AppliedArg(n.id, PrintArgs(n.args), t) by { NeutralArgs(n.args); }
      assert s == n.id + "(" + PrintArgs(n.args) + ")" + t;
    }
  }

  lemma AppliedArg(id: string, inner: string, t: string)
    requires AllWord(id) && Neutral(inner)
    ensures FirstArg(id + "(" + inner + ")" + t) == Some(Algorithm(id + "(" + inner + ")"))
  {
    hide ScanLen, WordLen, Neutral, AllDigits, AllWord;
    var s, rest := id + "(" + inner + ")" + t, "(" + inner + ")" + t;
    assert s == id + rest;
    WordLenConcat(id, rest);
    assert s[|id| + 1..] == inner + ([')'] + t);
    NeutralAt(inner, [')'] + t, 0);
    ScanFirst(')', t, 0);
    assert s[..|id| + 1 + (|inner| + 1)] == id + "(" + inner + ")";
  }

  function ClassifiedAll(args: seq<Name>): seq<Attr> {
    if args == [] then [] else [Classified(args[0])] + ClassifiedAll(args[1..])
  }

  lemma {:induction false} ArgsPrinted(args: seq<Name>, t: string, i: nat)
    requires args != [] && forall k :: 0 <= k < |args| ==> NameOk(args[k])
    ensures Args(PrintArgs(args) + ")" + t, i) ==
            if i + |args| < MAX_ATTRS then Some(ClassifiedAll(args)) else None
    decreases args
  {
    hide FirstArg, Classified, Print, NameOk;
    var s := PrintArgs(args) + ")" + t;
    var first := Print(args[0]);
    if |args| == 1 {
      assert s == first + (")" + t);
      FirstArgPrinted(args[0], ")" + t);
      assert At(s, |first|) == ')';
      assert ClassifiedAll(args) == [Classified(args[0])] + ClassifiedAll([]);
      assert [Classified(args[0])] + [] == [Classified(args[0])];
      assert FirstArg(s) == Some(Classified(args[0]));
    } else {
      var rest := PrintArgs(args[1..]) + ")" + t;
      assert s == first + ("," + rest);
      FirstArgPrinted(args[0], "," + rest);
      assert s[|first| + 1..] == rest;
      ArgsPrinted(args[1..], t, i + 1);
    }
  }

  lemma {:induction false} ClassifiedAt(args: seq<Name>, k: nat)
    requires k < |args|
    ensures |ClassifiedAll(args)| == |args| && ClassifiedAll(args)[k] == Classified(args[k])
  {
    if k > 0 {
      ClassifiedAt(args[1..], k - 1);
    } else if |args| > 1 {
      ClassifiedAt(args[1..], 0);
    }
  }

  /** An empty argument list is refused. */
  lemma NoArgs(t: string)
    ensures PrintArgs([]) == "" && ClassifiedAll([]) == [] && Args("" + ")" + t, 0) == None
  {
    assert "" + ")" + t == ")" + t;
    assert WordLen(")" + t) == 0;
  }

  /** A printed template name is read back exactly when it has between 1 and MAX_ATTRS - 1 arguments,
      whatever follows its last parenthesis. */
  lemma {:induction false} ParsePrinted(n: Name, t: string)
    requires NameOk(n) && n.Applied?
    ensures Parse(Print(n) + t) ==
            if 1 <= |n.args| < MAX_ATTRS then Some(Probe(n.id, ClassifiedAll(n.args))) else None
    ensures |ClassifiedAll(n.args)| == |n.args|
    ensures forall k :: 0 <= k < |n.args| ==> ClassifiedAll(n.args)[k] == Classified(n.args[k])
  {
    hide WordLen, Args, PrintArgs, ClassifiedAll, AllWord;
    var s := Print(n) + t;
    var rest := "(" + PrintArgs(n.args) + ")" + t;
    assert s == n.id + rest;
    WordLenConcat(n.id, rest);
    assert s[|n.id| + 1..] == PrintArgs(n.args) + ")" + t;
    assert s[..|n.id|] == n.id;
    if n.args == [] {
      NoArgs(t);
    } else {
      ArgsPrinted(n.args, t, 0);
      ClassifiedAt(n.args, 0);
      forall k | 0 <= k < |n.args| ensures ClassifiedAll(n.args)[k] == Classified(n.args[k]) {
        ClassifiedAt(n.args, k);
      }
    }
  }

  // ----- the parser as it runs, with a position in the text -----

  lemma NoDigits()
    ensures AllDigits([])
  {
  }

  lemma DigitsGrow(s: string, c: char)
    ensures AllDigits(s + [c]) <==> AllDigits(s) && IsDigit(c)
  {
    var t := s + [c];
    if AllDigits(t) {
      assert forall i :: 0 <= i < |s| ==> s[i] == t[i];
      assert t[|s|] == c;
    }
  }

  /** The loop over identifier characters, which also notes whether one of them is not a digit. */
  method SkipWord(s: string, start: nat) returns (p: nat, notnum: bool)
    requires start <= |s|
    ensures p == start + WordLen(s[start..])
    ensures notnum <==> !AllDigits(s[start..p])
  {
    hide AllDigits, AllWord;
    p, notnum := start, false;
    assert AllDigits([]) by { NoDigits(); }
    assert s[start..start] == [];
    while IsWord(At(s, p))
      invariant start <= p <= |s|
      invariant start + WordLen(s[start..]) == p + WordLen(s[p..])
      invariant notnum <==> !AllDigits(s[start..p])
      decreases |s| - p
    {
      assert s[p..][1..] == s[p + 1..];
      assert s[start..p + 1] == s[start..p] + [s[p]];
      DigitsGrow(s[start..p], s[p]);
      notnum := notnum || !IsDigit(At(s, p));
      p := p + 1;
    }
  }

  /** From an opening parenthesis to the one that closes it; fails at the end of the text. */
  method SkipParens(s: string, start: nat) returns (closed: bool, p: nat)
    requires start < |s|
    ensures var k := ScanLen(s[start + 1..], 0);
            if closed then k == Some(p - start) && start < p < |s| else k == None
  {
    p := start;
    var recursion: nat := 0;
    while true
      invariant start <= p < |s|
      invariant ScanLen(s[start + 1..], 0) == Longer(p - start, ScanLen(s[p + 1..], recursion))
      decreases |s| - p
    {
      p := p + 1;
      if At(s, p) == '\0' {
        return false, p;
      }
      assert s[p..][1..] == s[p + 1..];
      if s[p] == '(' {
        recursion := recursion + 1;
      } else if s[p] == ')' {
        if recursion == 0 {
          return true, p;
        }
        recursion := recursion - 1;
      }
    }
  }

  /** One argument, starting at `name`. */
  method ReadArg(s: string, name: nat) returns (a: Option<Attr>, p: nat)
    requires name <= |s|
    ensures a == FirstArg(s[name..])
    ensures a.Some? ==> p == name + |Text(a.value)|
  {
    hide WordLen, ScanLen;
    var notnum;
    p, notnum := SkipWord(s, name);
    var w := p - name;
    assert s[name..p] == s[name..][..w];
    assert At(s, p) == At(s[name..], w);
    if At(s, p) == '(' {
      assert s[p + 1..] == s[name..][w + 1..];
      var closed, q := SkipParens(s, p);
      if !closed {
        return None, p;
      }
      notnum := true;
      p := q + 1;
      assert s[name..p] == s[name..][..p - name];
    }
    if p == name {
      return None, p;
    }
    a := Some(if notnum then Algorithm(s[name..p]) else Number(s[name..p]));
  }

  lemma ArgLength(s: string)
    ensures FirstArg(s).Some? ==> 0 < |Text(FirstArg(s).value)| <= |s|
  {
  }

  function Found(template: string, attrs: seq<Attr>, rest: Option<seq<Attr>>): Option<Probe> {
    if rest.Some? then Some(Probe(template, attrs + rest.value)) else None
  }
  lemma FoundStart(template: string, rest: Option<seq<Attr>>)
    ensures Found(template, [], rest) == if rest.Some? then Some(Probe(template, rest.value)) else None
  {
    if rest.Some? {
      assert [] + rest.value == rest.value;
    }
  }

  lemma FoundNone(template: string, attrs: seq<Attr>)
    ensures Found(template, attrs, None) == None
  {
  }

  lemma FoundStep(template: string, attrs: seq<Attr>, a: Attr, rest: Option<seq<Attr>>)
    ensures Found(template, attrs, if rest.Some? then Some([a] + rest.value) else None) ==
            Found(template, attrs + [a], rest)
    ensures rest == Some([]) ==> Found(template, attrs, Some([a])) == Some(Probe(template, attrs + [a]))
  {
    if rest.Some? {
      assert attrs + ([a] + rest.value) == attrs + [a] + rest.value;
    }
  }

  /** The loop over the arguments. */
  method Probing(s: string) returns (r: Option<Probe>)
    ensures r == Parse(s)
  {
    hide WordLen, FirstArg, Text, Found;
    assert s[0..] == s;
    var p, _ := SkipWord(s, 0);
    if p == 0 || At(s, p) != '(' {
      return None;
    }
    var template := s[..p];
    var attrs: seq<Attr> := [];
    FoundStart(template, Args(s[p + 1..], 0));
    while true
      invariant p < |s| && |attrs| < MAX_ATTRS
      invariant Parse(s) == Found(template, attrs, Args(s[p + 1..], |attrs|))
      decreases |s| - p
    {
      var name := p + 1;
      var a;
      a, p := ReadArg(s, name);
      FoundNone(template, attrs);
      if a.None? {
        return None;
      }
      ArgLength(s[name..]);
      assert At(s, p) == At(s[name..], p - name);
      FoundStep(template, attrs, a.value, Some([]));
      if p < |s| {
        FoundStep(template, attrs, a.value, Args(s[p + 1..], |attrs| + 1));
        assert s[p + 1..] == s[name..][p - name + 1..];
      }
      attrs := attrs + [a.value];
      if |attrs| >= MAX_ATTRS {
        return None;
      }
      if At(s, p) == ')' {
        return Some(Probe(template, attrs));
      }
      if At(s, p) != ',' {
        return None;
      }
    }
  }
}

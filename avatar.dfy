/**
 * The supplier-card avatar helpers `getInitials` and `getAvatarColor` (identical in the recipes,
 * products and transactions pages; only the colour palettes differ).
 */
module Avatar {
  import opened Text
  import opened Common

  /** What `parts[k][0]` yields: a one-character string, or `undefined` for an empty part. */
  datatype JsChar = Undefined | Ch(c: char)

  function FirstChar(s: string): JsChar {
    if s == "" then Undefined else Ch(s[0])
  }

  function ShowJsChar(x: JsChar): string {
    match x
    case Undefined => "undefined"
    case Ch(c) => [c]
  }

  /** The value of `a + b` here: a string, or the number NaN, which has no `toUpperCase`. */
  datatype JsSum = Str(s: string) | NotANumber

  /** JavaScript `a + b`: two `undefined` add to the number NaN, otherwise strings concatenate. */
  function JsPlus(a: JsChar, b: JsChar): (v: JsSum)
    ensures v.NotANumber? <==> a.Undefined? && b.Undefined?
    ensures v.Str? ==> v.s == ShowJsChar(a) + ShowJsChar(b)
  {
    if a.Undefined? && b.Undefined? then NotANumber else Str(ShowJsChar(a) + ShowJsChar(b))
  }

  function Min(a: nat, b: nat): nat { if a <= b then a else b }

  /**
   * `getInitials` as written: the first characters of the first two space-separated parts,
   * or the first two characters when there are no two parts. Empty parts (leading, trailing
   * or doubled spaces) read `undefined`. `None` is the TypeError thrown while rendering when
   * both parts are empty and `NaN.toUpperCase` is called.
   */
  function InitialsAsWritten(name: string): (r: Option<string>)
    ensures name == "" ==> r == Some("?")
    ensures r.None? ==> name != "" && name[0] == ' '
  {
    if name == "" then Some("?")
    else
      var parts := Split(name, ' ');
      if |parts| >= 2 then
        match JsPlus(FirstChar(parts[0]), FirstChar(parts[1]))
        case NotANumber => None
        case Str(t) => Some(ToUpper(t))
      else Some(ToUpper(name[..Min(2, |name|)]))
  }

  /** A leading space turns the initials into text that is not taken from the name. */
  lemma LeadingSpaceInitials()
    ensures InitialsAsWritten(" b") == Some("UNDEFINEDB")
    ensures |InitialsAsWritten(" b").value| > 2
    ensures Initials(" b") == "B"
  {
    assert FirstLetter(" b", 1);
    assert Split(" b", ' ') == ["", "b"] by {
      assert " b"[1..] == "b" && "b"[1..] == "";
      assert Split("", ' ') == [""];
      assert Split("b", ' ') == [['b'] + ""] + [""][1..];
      assert ['b'] + "" == "b";
      assert [""][1..] == [];
    }
    assert JsPlus(FirstChar(""), FirstChar("b")) == Str("undefinedb");
    assert ToUpper("undefinedb") == "UNDEFINEDB";
  }

  /** A name opening with two blanks, or a single blank, makes the page throw while rendering. */
  lemma BlankStartThrows()
    ensures InitialsAsWritten(" ") == None
    ensures InitialsAsWritten("  x") == None
    ensures Initials(" ") == "?" && Initials("  x") == "X"
  {
    assert Split(" ", ' ') == ["", ""] by {
      assert " "[1..] == "";
      assert Split("", ' ') == [""];
    }
    assert Split("  x", ' ')[..2] == ["", ""] by {
      assert "  x"[1..] == " x" && " x"[1..] == "x";
      assert Split(" x", ' ') == [""] + Split("x", ' ');
    }
    assert FirstLetter("  x", 2);
  }

  /** A word begins at `k`: a non-blank character at the start or right after a blank. */
  predicate IsWordStart(s: string, k: int) {
    0 <= k < |s| && s[k] != ' ' && (k == 0 || s[k - 1] == ' ')
  }

  /** `i` is the name's first non-blank character. */
  predicate FirstLetter(s: string, i: int) {
    0 <= i < |s| && s[i] != ' ' && forall j :: 0 <= j < i ==> s[j] == ' '
  }

  /** `k` is where the word after the one holding `i` begins. */
  predicate NextWord(s: string, i: int, k: int) {
    i < k && IsWordStart(s, k) && forall j :: i < j < k ==> !IsWordStart(s, j)
  }

  /** No word begins after position `i`. */
  predicate OnlyWord(s: string, i: int) {
    forall k :: i < k < |s| ==> !IsWordStart(s, k)
  }

  /** The first non-blank position at or after `from`. */
  function NextNonBlank(s: string, from: nat): (r: Option<nat>)
    ensures r.None? ==> forall j :: from <= j < |s| ==> s[j] == ' '
    ensures r.Some? ==> from <= r.value < |s| && s[r.value] != ' '
    ensures r.Some? ==> forall j :: from <= j < r.value ==> s[j] == ' '
    decreases |s| - from
  {
    if from >= |s| then None
    else if s[from] != ' ' then Some(from)
    else NextNonBlank(s, from + 1)
  }

  /** The first word start at or after `from`. */
  function NextWordStart(s: string, from: nat): (r: Option<nat>)
    ensures r.None? ==> forall j :: from <= j < |s| ==> !IsWordStart(s, j)
    ensures r.Some? ==> from <= r.value && IsWordStart(s, r.value)
    ensures r.Some? ==> forall j :: from <= j < r.value ==> !IsWordStart(s, j)
    decreases |s| - from
  {
    if from >= |s| then None
    else if IsWordStart(s, from) then Some(from)
    else NextWordStart(s, from + 1)
  }

  /**
   * `getInitials` as intended: the upper-cased first letters of the first two words; for a
   * single word its first two letters; "?" for a name with no letter at all.
   */
  function Initials(name: string): (r: string)
    ensures (forall j :: 0 <= j < |name| ==> name[j] == ' ') ==> r == "?"
    ensures forall i :: FirstLetter(name, i) ==>
              1 <= |r| <= 2 && r[0] == UpperChar(name[i]) && ' ' !in r
    ensures forall i, k :: FirstLetter(name, i) && NextWord(name, i, k) ==>
              r == [UpperChar(name[i]), UpperChar(name[k])]
    ensures forall i :: FirstLetter(name, i) && OnlyWord(name, i) ==>
              if i + 1 < |name| && name[i + 1] != ' ' then r == [UpperChar(name[i]), UpperChar(name[i + 1])]
              else r == [UpperChar(name[i])]
  {
    match NextNonBlank(name, 0)
    case None => "?"
    case Some(i) =>
      match NextWordStart(name, i + 1)
      case Some(k) => [UpperChar(name[i]), UpperChar(name[k])]
      case None =>
        if i + 1 < |name| && name[i + 1] != ' ' then [UpperChar(name[i]), UpperChar(name[i + 1])]
        else [UpperChar(name[i])]
  }

  /** Where the name has no empty part, the code as written already computes the intended initials. */
  lemma {:induction false} InitialsAgreeWithoutEmptyParts(name: string)
    requires forall p :: p in Split(name, ' ') ==> p != ""
    ensures InitialsAsWritten(name) == Some(Initials(name))
  {
    if name != "" {
      var parts := Split(name, ' ');
      assert parts[0] in parts;
      match IndexOf(name, ' ')
      case None => OneWordAgrees(name);
      case Some(p) => TwoWordsAgree(name, p);
    }
  }

  /** A non-empty name without blanks: both take its first two characters. */
  lemma OneWordAgrees(name: string)
    requires name != "" && ' ' !in name
    ensures InitialsAsWritten(name) == Some(Initials(name))
  {
    SplitWithoutSeparator(name, ' ');
    assert FirstLetter(name, 0);
    assert OnlyWord(name, 0) by {
      forall k | 0 < k < |name| ensures !IsWordStart(name, k) {
        assert name[k - 1] in name;
      }
    }
    assert |Split(name, ' ')| == 1;
    assert InitialsAsWritten(name) == Some(ToUpper(name[..Min(2, |name|)]));
    if |name| >= 2 {
      assert name[..2] == [name[0], name[1]];
      assert ToUpper(name[..2]) == [UpperChar(name[0]), UpperChar(name[1])];
      assert Initials(name) == [UpperChar(name[0]), UpperChar(name[1])];
    } else {
      assert name[..1] == [name[0]];
      assert ToUpper(name[..1]) == [UpperChar(name[0])];
      assert Initials(name) == [UpperChar(name[0])];
    }
  }

  /** A name whose first blank at `p` separates two non-empty parts: both take the two word starts. */
  lemma TwoWordsAgree(name: string, p: nat)
    requires p < |name| && name[p] == ' ' && ' ' !in name[..p]
    requires forall part :: part in Split(name, ' ') ==> part != ""
    ensures InitialsAsWritten(name) == Some(Initials(name))
  {
    var parts := Split(name, ' ');
    TwoPartsStart(name, p);
    assert FirstLetter(name, 0);
    assert NextWord(name, 0, p + 1) by {
      forall j | 0 < j < p + 1 ensures !IsWordStart(name, j) {
        assert name[j - 1] in name[..p];
      }
    }
    assert JsPlus(FirstChar(parts[0]), FirstChar(parts[1])) == Str([name[0], name[p + 1]]);
    assert InitialsAsWritten(name) == Some(ToUpper([name[0], name[p + 1]]));
    assert ToUpper([name[0], name[p + 1]]) == [UpperChar(name[0]), UpperChar(name[p + 1])];
  }

  /** Split at the first blank: the two leading parts start with the name's first character and the one after the blank. */
  lemma TwoPartsStart(name: string, p: nat)
    requires p < |name| && name[p] == ' ' && ' ' !in name[..p]
    requires forall part :: part in Split(name, ' ') ==> part != ""
    ensures |Split(name, ' ')| >= 2 && p + 1 < |name|
    ensures Split(name, ' ')[0] != "" && Split(name, ' ')[1] != ""
    ensures Split(name, ' ')[0][0] == name[0] != ' ' && Split(name, ' ')[1][0] == name[p + 1] != ' '
  {
    var parts := Split(name, ' ');
    var a, b := name[..p], name[p + 1..];
    assert name == a + [' '] + b;
    SplitAtFirstSeparator(a, ' ', b);
    assert parts == [a] + Split(b, ' ');
    assert parts[0] in parts && parts[1] in parts;
    assert Split(b, ' ')[0] != "";
    assert parts[1][0] in parts[1];
  }

  /** `id ? id.charCodeAt(0) % colors.length : 0` for the six-colour palettes. */
  function AvatarIndex(id: string): (i: nat)
    ensures i < 6
    ensures id == "" ==> i == 0
  {
    if id == "" then 0 else (id[0] as int) % 6
  }

  const RecipesPalette: seq<string> :=
    ["bg-blue-500", "bg-purple-500", "bg-pink-500", "bg-indigo-500", "bg-teal-500", "bg-orange-500"]

  const TransactionsPalette: seq<string> :=
    ["bg-blue-600", "bg-violet-600", "bg-fuchsia-600", "bg-indigo-600", "bg-cyan-600", "bg-emerald-600"]

  /** `getAvatarColor`: always one of the palette's colours, the first for an empty id. */
  function AvatarColor(palette: seq<string>, id: string): (color: string)
    requires |palette| == 6
    ensures color in palette
    ensures id == "" ==> color == palette[0]
  {
    palette[AvatarIndex(id)]
  }
}

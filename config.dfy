/**
 * The configuration loader: the parameters declared by PARAMS in config_loader.h are
 * static globals initialised to their defaults; `load` reads a file line by line and
 * assigns the parameters named on it, `save` writes the parameters that differ from
 * their defaults. File streams are replaced by the sequence of lines read (None when
 * the file cannot be opened) and the sequence of lines written.
 */
module ConfigLoader {
  import opened Wrappers
  import opened IntText

  /** The parameters PARAMS declares, all of type int. */
  datatype Param = Width | Height

  /** PARAMS order: the order in which LOAD_PARAM and SAVE_PARAM are expanded. */
  const Params: seq<Param> := [Width, Height]

  /** `#name`: the text a parameter is written and looked up under. */
  function Name(p: Param): string {
    match p
    case Width => "width"
    case Height => "height"
  }

  /** `default_##name`. */
  function Default(p: Param): int {
    match p
    case Width => 800
    case Height => 600
  }

  /** The values of all parameters at one moment. */
  datatype Settings = Settings(width: int, height: int) {
    function Get(p: Param): int {
      match p
      case Width => width
      case Height => height
    }

    function Set(p: Param, v: int): (s: Settings)
      ensures s.Get(p) == v
      ensures forall q | q != p :: s.Get(q) == Get(q)
    {
      match p
      case Width => this.(width := v)
      case Height => this.(height := v)
    }

    /** Every value fits the C++ int the parameters are declared as. */
    predicate Valid() {
      InInt(width) && InInt(height)
    }
  }

  const Defaults: Settings := Settings(800, 600)

  /** `s.erase(std::remove_if(s.begin(), s.end(), ::isspace), s.end())`: s with every whitespace
    * character removed, the others kept in order. */
  function RemoveSpaces(s: string): (r: string)
    ensures |r| <= |s|
    ensures forall i | 0 <= i < |r| :: !IsSpace(r[i])
  {
    if s == [] then []
    else (if IsSpace(s[0]) then [] else [s[0]]) + RemoveSpaces(s[1..])
  }

  /** `s.find(c)`: the position of the first c, or None for npos. */
  function Find(s: string, c: char): (r: Option<nat>)
    ensures r.Some? ==> r.value < |s| && s[r.value] == c && c !in s[..r.value]
    ensures r.None? <==> c !in s
  {
    if s == [] then None
    else if s[0] == c then Some(0)
    else match Find(s[1..], c)
      case Some(k) => assert s[..k + 1] == [s[0]] + s[1..][..k]; Some(k + 1)
      case None => None
  }

  /** The key of a line: the text before its first '=' (the whole line when it has none) with all
    * whitespace removed. */
  function Key(line: string): string {
    match Find(line, '=')
    case Some(k) => RemoveSpaces(line[..k])
    case None => RemoveSpaces(line)
  }

  /** `std::string::erase(0, 1)`: drop the first character, if any. */
  function DropFirst(s: string): string {
    if s == [] then s else s[1..]
  }

  /** The exceptions that can leave `load`: std::out_of_range from `substr` at npos (the key matches
    * but the line has no '='), or an exception of std::stoi. */
  datatype LoadError = SubstrOutOfRange | StoiFailed(stoiError: StoiError)

  /** LOAD_PARAM for one parameter on one line: Ok(None) when the key is not the parameter's name,
    * Ok(Some(v)) when it is and the value parses to v, Err when a library call throws. The value text
    * runs from the first '=' to the end of the line, with all whitespace removed and then its first
    * character (that '=') dropped. A line is ignored unless its key is the parameter's name; substr
    * throws exactly when the key matches and the line has no '='; a value read always fits an int. */
  function LoadParam(line: string, p: Param): (r: Result<Option<int>, LoadError>)
    ensures Key(line) != Name(p) ==> r == Ok(None)
    ensures r == Err(SubstrOutOfRange) <==> Key(line) == Name(p) && '=' !in line
    ensures r.Ok? && r.value.Some? ==> InInt(r.value.value)
  {
    if Key(line) != Name(p) then Ok(None)
    else match Find(line, '=')
      case None => Err(SubstrOutOfRange)
      case Some(k) =>
        match Stoi(DropFirst(RemoveSpaces(line[k..])))
        case Ok(v) => Ok(Some(v))
        case Err(e) => Err(StoiFailed(e))
  }

  /** The state of the parameters after some lines, and the exception that stopped `load`, if any. */
  datatype Outcome = Outcome(settings: Settings, error: Option<LoadError>)

  /** `line[0] == '#'`; on an empty line line[0] is the terminating '\0', so it is not a comment. */
  predicate IsComment(line: string) {
    |line| > 0 && line[0] == '#'
  }

  /** The LOAD_PARAM blocks for the parameters ps, in order; an exception stops the rest. Values that fit
    * their ints keep fitting. */
  function LoadParams(s: Settings, line: string, ps: seq<Param>): (r: Outcome)
    ensures s.Valid() ==> r.settings.Valid()
    decreases |ps|
  {
    if ps == [] then Outcome(s, None)
    else match LoadParam(line, ps[0])
      case Err(e) => Outcome(s, Some(e))
      case Ok(None) => LoadParams(s, line, ps[1..])
      case Ok(Some(v)) => LoadParams(s.Set(ps[0], v), line, ps[1..])
  }

  /** The body of the getline loop for one line. */
  function LoadLine(s: Settings, line: string): Outcome {
    if IsComment(line) then Outcome(s, None) else LoadParams(s, line, Params)
  }

  /** The getline loop over a whole file: the lines in file order, stopping at the first exception. Values
    * that fit their ints keep fitting, whatever the file holds. */
  function LoadLines(s: Settings, lines: seq<string>): (r: Outcome)
    ensures s.Valid() ==> r.settings.Valid()
    decreases |lines|
  {
    if lines == [] then Outcome(s, None)
    else
      var before := LoadLines(s, lines[..|lines| - 1]);
      if before.error.Some? then before else LoadLine(before.settings, lines[|lines| - 1])
  }

  /** `#name << " = " << name`: the line SAVE_PARAM writes (without its "\n"). It is never read as a
    * comment and always holds the '=' LOAD_PARAM splits at. */
  function ParamLine(p: Param, v: int): (r: string)
    ensures !IsComment(r)
    ensures '=' in r
  {
    var line := Name(p) + " = " + IntToDecimal(v);
    assert line[0] == Name(p)[0] && line[|Name(p)| + 1] == '=';
    line
  }

  /** The SAVE_PARAM expansions for the parameters ps, in order: a line for each parameter whose value
    * differs from its default. */
  function SaveParams(s: Settings, ps: seq<Param>): (r: seq<string>)
    ensures |r| <= |ps|
    ensures forall i | 0 <= i < |r| :: !IsComment(r[i])
    decreases |ps|
  {
    if ps == [] then []
    else (if s.Get(ps[0]) != Default(ps[0]) then [ParamLine(ps[0], s.Get(ps[0]))] else []) + SaveParams(s, ps[1..])
  }

  /** The lines `save` writes. FULL_SAVE is declared but never read, so defaults are never written: the
    * file is empty exactly when every parameter is at its default, holds at most one line per parameter,
    * and none of its lines is a comment. */
  function SaveLines(s: Settings): (r: seq<string>)
    ensures |r| <= |Params|
    ensures r == [] <==> s == Defaults
    ensures forall i | 0 <= i < |r| :: !IsComment(r[i])
  {
    assert Params[1..] == [Height] && [Height][1..] == [];
    SaveParams(s, Params)
  }

  /** SaveLines spelled out for the two parameters. */
  lemma SaveLinesSteps(s: Settings)
    ensures SaveLines(s) == (if s.width != Default(Width) then [ParamLine(Width, s.width)] else [])
                            + (if s.height != Default(Height) then [ParamLine(Height, s.height)] else [])
  {
    assert Params[1..] == [Height] && [Height][1..] == [];
  }

  /** The static globals `name` that ADD_PARAM declares, as one object. */
  class Config {
    var width: int
    var height: int

    function Snapshot(): Settings
      reads this
    {
      Settings(width, height)
    }

    /** ADD_PARAM: every parameter starts at its default. */
    constructor ()
      ensures Snapshot() == Defaults
    {
      width := Default(Width);
      height := Default(Height);
    }

    /** `load(path)`: file is None when the stream cannot be opened, in which case nothing changes.
      * Otherwise every line not starting with '#' is offered to each parameter's LOAD_PARAM in turn.
      * An exception leaves the function with the assignments already made. */
    method Load(file: Option<seq<string>>) returns (error: Option<LoadError>)
      modifies this
      ensures file.None? ==> Snapshot() == old(Snapshot()) && error.None?
      ensures file.Some? ==> Outcome(Snapshot(), error) == LoadLines(old(Snapshot()), file.value)
      ensures old(Snapshot()).Valid() ==> Snapshot().Valid()
    {
      if file.None? {
        return None;
      }
      var lines := file.value;
      var i := 0;
      while i < |lines|
        invariant 0 <= i <= |lines|
        invariant LoadLines(old(Snapshot()), lines[..i]) == Outcome(Snapshot(), None)
      {
        var line := lines[i];
        NextLine(old(Snapshot()), lines, i);
        if IsComment(line) {
          i := i + 1;
          continue;
        }
        error := LoadParamsOf(line);
        if error.Some? {
          ErrorStopsLoading(old(Snapshot()), lines, i + 1);
          return;
        }
        i := i + 1;
      }
      assert lines[..i] == lines;
      return None;
    }

    /** PARAMS(LOAD_PARAM) on one line that is not a comment: each parameter's block in turn, stopping at
      * an exception. */
    method LoadParamsOf(line: string) returns (error: Option<LoadError>)
      requires !IsComment(line)
      modifies this
      ensures Outcome(Snapshot(), error) == LoadLine(old(Snapshot()), line)
    {
      LoadLineSteps(Snapshot(), line);
      var w := LoadParam(line, Width);
      if w.Err? {
        return Some(w.error);
      }
      if w.value.Some? {
        width := w.value.value;
      }
      var h := LoadParam(line, Height);
      if h.Err? {
        return Some(h.error);
      }
      if h.value.Some? {
        height := h.value.value;
      }
      return None;
    }

    /** `save(path)`: the lines written, in PARAMS order. Read back by `load` into parameters that are at
      * their defaults, they restore every parameter. */
    method Save() returns (lines: seq<string>)
      requires Snapshot().Valid()
      ensures lines == SaveLines(Snapshot())
      ensures LoadLines(Defaults, lines) == Outcome(Snapshot(), None)
    {
      lines := [];
      // PARAMS(SAVE_PARAM)
      if width != Default(Width) {
        lines := lines + [ParamLine(Width, width)];
      }
      if height != Default(Height) {
        lines := lines + [ParamLine(Height, height)];
      }
      ghost var s := Snapshot();
      SaveLinesSteps(s);
      assert lines == SaveLines(s);
      SaveLoadRoundTrip(s);
    }
  }

  // ---------------------------------------------------------------------------
  // Properties of load and save

  lemma NextLine(s: Settings, lines: seq<string>, i: nat)
    requires i < |lines|
    ensures LoadLines(s, lines[..i + 1]) ==
              var before := LoadLines(s, lines[..i]);
              if before.error.Some? then before else LoadLine(before.settings, lines[i])
  {
    assert lines[..i + 1][..i] == lines[..i];
  }

  /** LoadLine on a line that is not a comment, spelled out for the two parameters. */
  lemma LoadLineSteps(s: Settings, line: string)
    requires !IsComment(line)
    ensures LoadLine(s, line) ==
              match LoadParam(line, Width)
              case Err(e) => Outcome(s, Some(e))
              case Ok(w) =>
                var s1 := if w.Some? then s.(width := w.value) else s;
                match LoadParam(line, Height)
                case Err(e) => Outcome(s1, Some(e))
                case Ok(h) => Outcome(if h.Some? then s1.(height := h.value) else s1, None)
  {
    assert Params[1..] == [Height] && [Height][1..] == [];
  }

  /** Once an exception is raised, the remaining lines are not read. */
  lemma {:induction false} ErrorStopsLoading(s: Settings, lines: seq<string>, j: nat)
    requires j <= |lines|
    requires LoadLines(s, lines[..j]).error.Some?
    ensures LoadLines(s, lines) == LoadLines(s, lines[..j])
    decreases |lines|
  {
    if j < |lines| {
      var init := lines[..|lines| - 1];
      assert init[..j] == lines[..j];
      ErrorStopsLoading(s, init, j);
    } else {
      assert lines[..j] == lines;
    }
  }

  lemma {:induction false} RemoveSpacesConcat(a: string, b: string)
    ensures RemoveSpaces(a + b) == RemoveSpaces(a) + RemoveSpaces(b)
    decreases |a|
  {
    if a != [] {
      assert (a + b)[0] == a[0];
      assert (a + b)[1..] == a[1..] + b;
      RemoveSpacesConcat(a[1..], b);
    } else {
      assert a + b == b;
    }
  }

  lemma {:induction false} RemoveSpacesKeepsSpaceFree(s: string)
    requires forall i | 0 <= i < |s| :: !IsSpace(s[i])
    ensures RemoveSpaces(s) == s
  {
    if s != [] {
      RemoveSpacesKeepsSpaceFree(s[1..]);
    }
  }

  lemma {:induction false} FindAfter(a: string, b: string, c: char)
    requires c !in a
    ensures Find(a + b, c) == match Find(b, c) case Some(k) => Some(|a| + k) case None => None
    decreases |a|
  {
    if a == [] {
      assert a + b == b;
    } else {
      var ab := a + b;
      assert ab[0] == a[0] && ab[0] != c;
      assert ab[1..] == a[1..] + b;
      FindAfter(a[1..], b, c);
    }
  }

  /** A line `name = value` whose name has neither whitespace nor '=': its first '=' follows the name and
    * one space, its key is the name, and its value text starts at that '='. */
  lemma AssignmentLine(name: string, value: string)
    requires '=' !in name
    requires forall i | 0 <= i < |name| :: !IsSpace(name[i])
    ensures Find(name + " = " + value, '=') == Some(|name| + 1)
    ensures Key(name + " = " + value) == name
    ensures (name + " = " + value)[|name| + 1..] == "= " + value
  {
    var line := name + " = " + value;
    var rest := "= " + value;
    assert line == (name + " ") + rest;
    assert rest[0] == '=';
    FindAfter(name + " ", rest, '=');
    assert line[..|name| + 1] == name + " ";
    RemoveSpacesConcat(name, " ");
    RemoveSpacesKeepsSpaceFree(name);
    assert RemoveSpaces(" ") == [] by {
      assert " "[1..] == [];
    }
  }

  /** A line written by SAVE_PARAM for p has p's name as its key, and its first '=' follows the name and
    * one space. */
  lemma KeyOfParamLine(p: Param, v: int)
    ensures Find(ParamLine(p, v), '=') == Some(|Name(p)| + 1)
    ensures Key(ParamLine(p, v)) == Name(p)
  {
    AssignmentLine(Name(p), IntToDecimal(v));
  }

  lemma ValueOfParamLine(p: Param, v: int)
    ensures DropFirst(RemoveSpaces(ParamLine(p, v)[|Name(p)| + 1..])) == IntToDecimal(v)
  {
    var digits := IntToDecimal(v);
    IntToDecimalHasNoSpaces(v);
    assert ParamLine(p, v)[|Name(p)| + 1..] == "= " + digits;
    RemoveSpacesConcat("= ", digits);
    RemoveSpacesKeepsSpaceFree(digits);
    assert RemoveSpaces("= ") == "=";
  }

  /** A line written by SAVE_PARAM for p is taken by p's LOAD_PARAM, which reads back the saved
    * value, and ignored by every other parameter's. */
  lemma ParamLineLoads(p: Param, q: Param, v: int)
    requires InInt(v)
    ensures LoadParam(ParamLine(p, v), q) == if p == q then Ok(Some(v)) else Ok(None)
  {
    KeyOfParamLine(p, v);
    ValueOfParamLine(p, v);
    StoiInvertsIntToDecimal(v);
  }

  lemma ParamLineLoadLine(s: Settings, p: Param, v: int)
    requires InInt(v)
    ensures LoadLine(s, ParamLine(p, v)) == Outcome(s.Set(p, v), None)
  {
    assert ParamLine(p, v)[0] == Name(p)[0];
    LoadLineSteps(s, ParamLine(p, v));
    ParamLineLoads(p, Width, v);
    ParamLineLoads(p, Height, v);
  }

  /** Round trip: the lines `save` writes, loaded into parameters still at their defaults, restore the
    * saved values and raise no exception. */
  lemma SaveLoadRoundTrip(s: Settings)
    requires s.Valid()
    ensures LoadLines(Defaults, SaveLines(s)) == Outcome(s, None)
  {
    var widthLines := if s.width != 800 then [ParamLine(Width, s.width)] else [];
    var heightLines := if s.height != 600 then [ParamLine(Height, s.height)] else [];
    assert SaveLines(s) == widthLines + heightLines;
    var afterWidth := Settings(s.width, 600);
    assert LoadLines(Defaults, widthLines) == Outcome(afterWidth, None) by {
      if s.width != 800 {
        ParamLineLoadLine(Defaults, Width, s.width);
        assert widthLines[..0] == [];
      }
    }
    if s.height != 600 {
      ParamLineLoadLine(afterWidth, Height, s.height);
      assert (widthLines + heightLines)[..|widthLines|] == widthLines;
    } else {
      assert widthLines + heightLines == widthLines;
    }
  }

  /** `save` writes a line naming a parameter exactly when its value differs from the default. */
  lemma SaveWritesOnlyChanged(s: Settings, p: Param)
    ensures (exists i | 0 <= i < |SaveLines(s)| :: SaveLines(s)[i] == ParamLine(p, s.Get(p)))
            <==> s.Get(p) != Default(p)
    ensures |SaveLines(s)| == (if s.width != 800 then 1 else 0) + (if s.height != 600 then 1 else 0)
  {
    var lines := SaveLines(s);
    assert lines == (if s.width != 800 then [ParamLine(Width, s.width)] else [])
                    + (if s.height != 600 then [ParamLine(Height, s.height)] else []);
    if s.Get(p) != Default(p) {
      var i := if p == Height && s.width != 800 then 1 else 0;
      assert lines[i] == ParamLine(p, s.Get(p));
    } else {
      forall i | 0 <= i < |lines| ensures lines[i] != ParamLine(p, s.Get(p)) {
        assert lines[i][0] != Name(p)[0];
      }
    }
  }

  /** A line starting with '#' changes nothing, wherever it stands in the file. */
  lemma {:induction false} CommentLineIgnored(s: Settings, a: seq<string>, comment: string, b: seq<string>)
    requires IsComment(comment)
    ensures LoadLines(s, a + [comment] + b) == LoadLines(s, a + b)
    decreases |b|
  {
    if b == [] {
      assert (a + [comment] + b)[..|a|] == a;
      assert a + [comment] + b == a + [comment] && a + b == a;
    } else {
      var b' := b[..|b| - 1];
      assert (a + [comment] + b)[..|a + [comment] + b| - 1] == a + [comment] + b';
      assert (a + b)[..|a + b| - 1] == a + b';
      CommentLineIgnored(s, a, comment, b');
    }
  }

  /** A line names p when it is not a comment and its key is p's name. */
  predicate NamesParam(line: string, p: Param) {
    !IsComment(line) && Key(line) == Name(p)
  }

  lemma {:induction false} LoadParamsKeepsUnnamed(s: Settings, line: string, ps: seq<Param>, p: Param)
    requires Key(line) != Name(p)
    ensures LoadParams(s, line, ps).settings.Get(p) == s.Get(p)
    decreases |ps|
  {
    if ps != [] {
      match LoadParam(line, ps[0])
      case Err(_) =>
      case Ok(None) => LoadParamsKeepsUnnamed(s, line, ps[1..], p);
      case Ok(Some(v)) =>
        assert ps[0] != p;
        LoadParamsKeepsUnnamed(s.Set(ps[0], v), line, ps[1..], p);
    }
  }

  /** The last line naming a parameter wins: lines after it that do not name the parameter leave its
    * value as that line set it (and a file that never names it leaves it at its prior value). */
  lemma {:induction false} LaterLinesNotNamingKeep(s: Settings, a: seq<string>, b: seq<string>, p: Param)
    requires forall i | 0 <= i < |b| :: !NamesParam(b[i], p)
    ensures LoadLines(s, a + b).settings.Get(p) == LoadLines(s, a).settings.Get(p)
    decreases |b|
  {
    if b == [] {
      assert a + b == a;
    } else {
      var b' := b[..|b| - 1];
      assert (a + b)[..|a + b| - 1] == a + b';
      LaterLinesNotNamingKeep(s, a, b', p);
      var before := LoadLines(s, a + b');
      var last := b[|b| - 1];
      if before.error.None? && !IsComment(last) {
        LoadParamsKeepsUnnamed(before.settings, last, Params, p);
      }
    }
  }

  /** LOAD_PARAM on a line `name = value`: ignored unless the name is the parameter's, and otherwise the
    * value text after the '=', without whitespace, is parsed by stoi. */
  lemma LoadParamOfAssignment(name: string, value: string, p: Param)
    requires '=' !in name
    requires forall i | 0 <= i < |name| :: !IsSpace(name[i])
    ensures LoadParam(name + " = " + value, p) ==
              if name != Name(p) then Ok(None)
              else match Stoi(DropFirst(RemoveSpaces("= " + value)))
                case Ok(v) => Ok(Some(v))
                case Err(e) => Err(StoiFailed(e))
  {
    AssignmentLine(name, value);
  }

  /** Removing whitespace forgets where a whitespace character stood. */
  lemma RemoveSpacesDropsSpace(x: string, space: char, y: string)
    requires IsSpace(space)
    ensures RemoveSpaces(x + [space] + y) == RemoveSpaces(x + y)
  {
    RemoveSpacesConcat(x + [space], y);
    RemoveSpacesConcat(x, [space]);
    RemoveSpacesConcat(x, y);
    assert RemoveSpaces([space]) == [] by {
      assert [space][1..] == [];
    }
    assert RemoveSpaces(x) + [] == RemoveSpaces(x);
  }

  /** Whitespace anywhere in the value is removed before parsing: inserting a whitespace character into
    * the value text of a line does not change what LOAD_PARAM reads from it ("width = 1 2" reads as
    * "width = 12"). */
  lemma SpaceInValueIgnored(name: string, x: string, space: char, y: string, p: Param)
    requires '=' !in name
    requires forall i | 0 <= i < |name| :: !IsSpace(name[i])
    requires IsSpace(space)
    ensures LoadParam(name + " = " + (x + [space] + y), p) == LoadParam(name + " = " + (x + y), p)
  {
    var prefix := "= " + x;
    assert "= " + (x + [space] + y) == prefix + [space] + y;
    assert "= " + (x + y) == prefix + y;
    RemoveSpacesDropsSpace(prefix, space, y);
    LoadParamOfAssignment(name, x + [space] + y, p);
    LoadParamOfAssignment(name, x + y, p);
  }

  /** A line whose key is a parameter's name but which has no '=' makes `substr` throw before any
    * parameter changes. */
  lemma KeyWithoutEqualsThrows(s: Settings, line: string, p: Param)
    requires !IsComment(line) && '=' !in line && Key(line) == Name(p)
    ensures LoadLine(s, line) == Outcome(s, Some(SubstrOutOfRange))
  {
    LoadLineSteps(s, line);
  }

  // ---------------------------------------------------------------------------
  // detail::auto_parse for the other parameter types (no parameter of these types is declared)

  /** auto_parse(bool&, value) as written: `retval = value[0] = 1 || ...` assigns true to value[0] and
    * then converts that character to bool, so every value reads as true. (value[0] of an empty string is
    * its terminator, which is overwritten in the same way.) */
  function ParseBool(value: string): (r: bool)
    ensures r
  {
    // `1 || ...` is true without evaluating the rest; true is stored in value[0] as the character 1
    var stored: char := 1 as char;
    stored != 0 as char
  }

  /** `std::ostream << b` for a bool: "1" or "0" by default, "true" or "false" with std::boolalpha. */
  function BoolText(b: bool, alpha: bool): string {
    if alpha then (if b then "true" else "false") else (if b then "1" else "0")
  }

  /** auto_parse(bool&, value) as evidently intended: true exactly when the value starts with '1', 'T' or
    * 't'. It reads back every bool `<<` writes, in either format. */
  function ParseBoolIntended(value: string): (r: bool)
    ensures r <==> value != [] && value[0] in {'1', 'T', 't'}
    ensures forall b: bool, alpha: bool :: value == BoolText(b, alpha) ==> r == b
  {
    value != [] && (value[0] == '1' || value[0] == 'T' || value[0] == 't')
  }

  /** The assignment in auto_parse(bool&) makes "false" and "0", the texts `<<` writes for false, read as
    * true. */
  lemma ParseBoolAsWrittenAcceptsFalse()
    ensures ParseBool(BoolText(false, true)) && !ParseBoolIntended(BoolText(false, true))
    ensures ParseBool(BoolText(false, false)) && !ParseBoolIntended(BoolText(false, false))
  {
  }

  /** auto_parse(std::string&, value): `value.erase(0, 1).pop_back()` drops the first and the last
    * character. On fewer than two characters pop_back would act on an empty string (undefined). */
  function ParseString(value: string): (r: string)
    requires |value| >= 2
    ensures |r| == |value| - 2
    ensures forall i | 0 <= i < |r| :: r[i] == value[i + 1]
  {
    DropFirst(value)[..|value| - 2]
  }

  /** A quoted value loses its quotes and nothing else. */
  lemma ParseStringUnquotes(text: string)
    ensures ParseString("\"" + text + "\"") == text
  {
    var r := ParseString("\"" + text + "\"");
    assert forall i | 0 <= i < |r| :: r[i] == text[i];
  }
}

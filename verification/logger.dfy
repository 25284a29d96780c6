/** The structured logger: a `Logger` labels every event with its section and
    action and, once metadata was added, with its `meta` map; the configured
    level name is mapped to a zerolog level without regard to case. */
module Logger {

  /** zerolog's levels. */
  datatype Level = Trace | Debug | Info | Warn | Error | Fatal | Panic

  /** The lower-case name of each level. */
  function Name(l: Level): string
  {
    match l
    case Trace => "trace"
    case Debug => "debug"
    case Info => "info"
    case Warn => "warn"
    case Error => "error"
    case Fatal => "fatal"
    case Panic => "panic"
  }

  /** The lookup table `stringLevelToZerologLevel` consults. */
  const LevelNames: map<string, Level> :=
    map["trace" := Trace, "debug" := Debug, "info" := Info, "warn" := Warn,
        "error" := Error, "fatal" := Fatal, "panic" := Panic]

  predicate IsUpper(c: char)
  {
    'A' <= c <= 'Z'
  }

  /** The two characters outside ASCII that Go's `unicode.ToLower` turns into
      an ASCII letter. */
  const DottedCapitalI: char := '\U{0130}'
  const KelvinSign: char := '\U{212A}'

  /** Whether lower-casing changes `c` into an ASCII letter. */
  predicate Folds(c: char)
  {
    IsUpper(c) || c == DottedCapitalI || c == KelvinSign
  }

  /** Lower-cases one character into ASCII where Go's `unicode.ToLower`
      does so, and leaves every other character alone. */
  function LowerChar(c: char): (r: char)
    ensures IsUpper(c) ==> r as int == c as int + 32
    ensures c == DottedCapitalI ==> r == 'i'
    ensures c == KelvinSign ==> r == 'k'
    ensures !Folds(c) ==> r == c
    ensures !Folds(r)
  {
    if IsUpper(c) then (c as int + 32) as char
    else if c == DottedCapitalI then 'i'
    else if c == KelvinSign then 'k'
    else c
  }

  /** `strings.ToLower`, on the characters whose lower case can occur in a
      level name. */
  function ToLower(s: string): (r: string)
    ensures |r| == |s|
    ensures forall i :: 0 <= i < |s| ==> r[i] == LowerChar(s[i])
  {
    if s == [] then [] else [LowerChar(s[0])] + ToLower(s[1..])
  }

  /** Lower-casing twice is lower-casing once. */
  lemma ToLowerIdempotent(s: string)
    ensures ToLower(ToLower(s)) == ToLower(s)
  {
    var once := ToLower(s);
    assert forall i :: 0 <= i < |once| ==> LowerChar(once[i]) == once[i];
  }

  /** `stringLevelToZerologLevel`: the level whose name the lower-cased
      string is, or Info when it names no level. */
  function LevelFromString(level: string): (r: Level)
    ensures ToLower(level) == Name(r) || (r == Info && ToLower(level) !in LevelNames)
  {
    var key := ToLower(level);
    LevelNamesExact(key);
    if key in LevelNames then LevelNames[key] else Info
  }

  /** The table holds exactly the seven level names, each with its level. */
  lemma {:induction false} LevelNamesExact(key: string)
    ensures key in LevelNames <==> exists l :: Name(l) == key
    ensures forall l :: Name(l) == key ==> key in LevelNames && LevelNames[key] == l
  {
    if key in LevelNames {
      assert Name(LevelNames[key]) == key;
    }
  }

  /** Every level name, in any mix of cases, maps back to its level. */
  lemma NameRoundTrip(l: Level, spelled: string)
    requires ToLower(spelled) == Name(l)
    ensures LevelFromString(spelled) == l
    ensures LevelFromString(Name(l)) == l
  {
    LevelNamesExact(Name(l));
    assert ToLower(Name(l)) == Name(l);
  }

  /** The lookup ignores case: a string and its lower-case form map alike. */
  lemma CaseInsensitive(level: string)
    ensures LevelFromString(ToLower(level)) == LevelFromString(level)
  {
    ToLowerIdempotent(level);
  }

  /** A level other than Info is chosen exactly when the string spells its
      name; every other string, unknown or empty, selects Info. */
  lemma LevelFromStringExact(level: string, l: Level)
    ensures l != Info ==> (LevelFromString(level) == l <==> ToLower(level) == Name(l))
    ensures LevelFromString(level) == Info <==> ToLower(level) == "info" || ToLower(level) !in LevelNames
  {
    LevelNamesExact(ToLower(level));
  }

  /** Go lower-cases the dotted capital I to 'i', so "PANİC" selects Panic
      and "İNFO" selects Info. */
  lemma DottedCapitalISelectsPanic()
    ensures LevelFromString("PAN\U{0130}C") == Panic
    ensures LevelFromString("\U{0130}NFO") == Info
  {
    assert ToLower("PAN\U{0130}C") == "panic";
    NameRoundTrip(Panic, "PAN\U{0130}C");
  }

  /** A value stored in a logger's metadata. */
  datatype MetaValue = Text(text: string) | Number(number: int) | Flag(flag: bool)

  /** A field of a zerolog event. */
  datatype Field = Str(key: string, text: string) | Meta(key: string, meta: map<string, MetaValue>)

  class Logger {
    const section: string
    const action: string
    var meta: map<string, MetaValue>

    /** `New`: a logger for `section` and `action` with no metadata. */
    constructor (section: string, action: string)
      ensures this.section == section && this.action == action && meta == map[]
    {
      this.section := section;
      this.action := action;
      meta := map[];
    }

    /** Sets or overwrites the one key `name`. */
    method AddMeta(name: string, value: MetaValue)
      modifies this
      ensures meta == old(meta)[name := value]
      ensures meta.Keys == old(meta).Keys + {name} && |meta| > 0
    {
      meta := meta[name := value];
    }

    /** The event with this logger's labels added: the section and action
        always, the metadata only when there is some. */
    function Zerolog(event: seq<Field>): (r: seq<Field>)
      reads this
      ensures |r| >= |event| + 2 && r[..|event|] == event
      ensures r[|event|] == Str("section", section) && r[|event| + 1] == Str("action", action)
      ensures |r| == |event| + 3 <==> |meta| > 0
      ensures |meta| > 0 ==> r[|event| + 2] == Meta("meta", meta)
      ensures |r| == |event| + 2 <==> |meta| == 0
    {
      event + [Str("section", section), Str("action", action)] + (if |meta| > 0 then [Meta("meta", meta)] else [])
    }
  }
}

/** Start-up configuration (src/main.rs): reading `.env`, the defaults, and
    the PORT value. The process environment is a class whose one field, a
    map from variable names to values, `load_env` updates in place. */
module Env {
  import opened Base

  /** Rust `str::split(sep)`: the fields between separators, never an empty list. */
  function Split(s: string, sep: char): (parts: seq<string>)
    ensures |parts| >= 1
    ensures forall i :: 0 <= i < |parts| ==> sep !in parts[i]
    decreases |s|
  {
    if |s| == 0 then [""]
    else if s[0] == sep then [""] + Split(s[1..], sep)
    else var rest := Split(s[1..], sep); [[s[0]] + rest[0]] + rest[1..]
  }

  /** The inverse of Split: fields glued back together with the separator. */
  function Join(parts: seq<string>, sep: char): string
    requires |parts| >= 1
    decreases |parts|
  {
    if |parts| == 1 then parts[0] else parts[0] + [sep] + Join(parts[1..], sep)
  }

  lemma {:induction false} JoinSplit(s: string, sep: char)
    ensures Join(Split(s, sep), sep) == s
    decreases |s|
  {
    if |s| == 0 {
    } else if s[0] == sep {
      JoinSplit(s[1..], sep);
      assert Split(s, sep)[1..] == Split(s[1..], sep);
    } else {
      JoinSplit(s[1..], sep);
      var rest := Split(s[1..], sep);
      var parts := Split(s, sep);
      assert parts[0] == [s[0]] + rest[0];
      if |rest| == 1 {
        assert parts == [[s[0]] + rest[0]];
      } else {
        assert parts[1..] == rest[1..];
        assert Join(rest, sep) == rest[0] + [sep] + Join(rest[1..], sep);
      }
    }
  }

  /** Splitting a text that has no separator gives the text itself. */
  lemma {:induction false} SplitNoSeparator(s: string, sep: char)
    requires sep !in s
    ensures Split(s, sep) == [s]
    decreases |s|
  {
    if |s| > 0 {
      assert sep !in s[1..];
      SplitNoSeparator(s[1..], sep);
      assert [s[0]] + s[1..] == s;
    }
  }

  /** A separator-free prefix becomes the first field of its own. */
  lemma {:induction false} SplitAfterField(a: string, sep: char, b: string)
    requires sep !in a
    ensures Split(a + [sep] + b, sep) == [a] + Split(b, sep)
    decreases |a|
  {
    if |a| == 0 {
      assert a + [sep] + b == [sep] + b;
      assert ([sep] + b)[1..] == b;
    } else {
      assert (a + [sep] + b)[1..] == a[1..] + [sep] + b;
      assert sep !in a[1..];
      SplitAfterField(a[1..], sep, b);
      assert [a[0]] + a[1..] == a;
    }
  }

  /** One `.env` line as the source reads it: the first and the last `=`-field. */
  function LinePair(line: string): (string, string)
  {
    var fields := Split(line, '=');
    (fields[0], fields[|fields| - 1])
  }

  /** A line `key=value` with no `=` inside key or value yields exactly that pair. */
  lemma LinePairOfAssignment(key: string, value: string)
    requires '=' !in key && '=' !in value
    ensures LinePair(key + "=" + value) == (key, value)
  {
    SplitAfterField(key, '=', value);
    SplitNoSeparator(value, '=');
  }

  /** Only the first and last fields survive: `a=b=c` gives (a, c). */
  lemma LinePairDropsMiddle()
    ensures LinePair("a=b=c") == ("a", "c")
  {
    SplitAfterField("a", '=', "b=c");
    SplitAfterField("b", '=', "c");
    SplitNoSeparator("c", '=');
    assert "a=b=c" == "a" + ['='] + "b=c";
    assert "b=c" == "b" + ['='] + "c";
  }

  /** A line without `=` is both the key and the value. */
  lemma LinePairWithoutEquals(line: string)
    requires '=' !in line
    ensures LinePair(line) == (line, line)
  {
    SplitNoSeparator(line, '=');
  }

  /** Rust `str::lines`: split at "\n", drop a "\r" just before it; a final
      line ending is optional and yields no empty last line. */
  function Lines(s: string): (ls: seq<string>)
    ensures forall i :: 0 <= i < |ls| ==> '\n' !in ls[i]
    decreases |s|
  {
    if |s| == 0 then []
    else if '\n' !in s then [s]
    else
      var i := IndexOf(s, '\n');
      var line := s[..i];
      assert '\n' !in line;
      [if |line| > 0 && line[|line| - 1] == '\r' then line[..|line| - 1] else line]
        + Lines(s[i + 1..])
  }

  function IndexOf(s: string, c: char): (i: nat)
    requires c in s
    ensures i < |s| && s[i] == c && c !in s[..i]
  {
    if s[0] == c then 0 else 1 + IndexOf(s[1..], c)
  }

  /** Lines written one per "\n" are read back unchanged. */
  lemma {:induction false} LinesOfTerminated(ls: seq<string>)
    requires forall i :: 0 <= i < |ls| ==> '\n' !in ls[i] && (|ls[i]| == 0 || ls[i][|ls[i]| - 1] != '\r')
    ensures Lines(Terminated(ls)) == ls
    decreases |ls|
  {
    if |ls| > 0 {
      var s := Terminated(ls);
      assert s == ls[0] + "\n" + Terminated(ls[1..]);
      assert s[|ls[0]|] == '\n';
      assert '\n' in s;
      var i := IndexOf(s, '\n');
      assert forall j :: 0 <= j < |ls[0]| ==> s[j] == ls[0][j];
      assert i <= |ls[0]| ==> s[..i] == ls[0][..i];
      assert i == |ls[0]|;
      assert s[..i] == ls[0];
      assert s[i + 1..] == Terminated(ls[1..]);
      LinesOfTerminated(ls[1..]);
    }
  }

  function Terminated(ls: seq<string>): string
  {
    if |ls| == 0 then "" else ls[0] + "\n" + Terminated(ls[1..])
  }

  /** All pairs of a `.env` text, in file order. */
  function Pairs(text: string): seq<(string, string)>
  {
    seq(|Lines(text)|, i requires 0 <= i < |Lines(text)| => LinePair(Lines(text)[i]))
  }

  /** The environment after `set_var` of each pair in order. */
  function Apply(env: map<string, string>, pairs: seq<(string, string)>): map<string, string>
    decreases |pairs|
  {
    if |pairs| == 0 then env
    else Apply(env, pairs[..|pairs| - 1])[pairs[|pairs| - 1].0 := pairs[|pairs| - 1].1]
  }

  /** `std::env::set_var` panics on an empty key, on a key holding '=' or
      NUL, and on a value holding NUL. */
  predicate SetVarPanics(key: string, value: string)
  {
    key == "" || '=' in key || '\0' in key || '\0' in value
  }

  /** The position of the first pair whose `set_var` panics, or the length
      when none does. */
  function PanicAt(pairs: seq<(string, string)>): (i: nat)
    ensures i <= |pairs|
    ensures forall j :: 0 <= j < i ==> !SetVarPanics(pairs[j].0, pairs[j].1)
    ensures i < |pairs| ==> SetVarPanics(pairs[i].0, pairs[i].1)
    decreases |pairs|
  {
    if |pairs| == 0 then 0
    else if SetVarPanics(pairs[0].0, pairs[0].1) then 0
    else 1 + PanicAt(pairs[1..])
  }

  /** A blank line in `.env` reads as the pair ("", ""), whose `set_var`
      panics, so loading stops there at the latest. */
  lemma BlankLineAborts(ls: seq<string>, i: nat)
    requires forall j :: 0 <= j < |ls| ==> '\n' !in ls[j] && (|ls[j]| == 0 || ls[j][|ls[j]| - 1] != '\r')
    requires i < |ls| && ls[i] == ""
    ensures |Pairs(Terminated(ls))| == |ls|
    ensures PanicAt(Pairs(Terminated(ls))) <= i
  {
    LinesOfTerminated(ls);
    SplitNoSeparator("", '=');
    assert Pairs(Terminated(ls))[i] == ("", "");
  }

  /** A later pair wins: once (k, v) is applied, no later pair with key k, k maps to v. */
  lemma {:induction false} ApplyLastWins(env: map<string, string>, before: seq<(string, string)>,
                                         k: string, v: string, after: seq<(string, string)>)
    requires forall j :: 0 <= j < |after| ==> after[j].0 != k
    ensures k in Apply(env, before + [(k, v)] + after)
    ensures Apply(env, before + [(k, v)] + after)[k] == v
    decreases |after|
  {
    var all := before + [(k, v)] + after;
    if |after| == 0 {
      assert all[..|all| - 1] == before;
    } else {
      assert all[..|all| - 1] == before + [(k, v)] + after[..|after| - 1];
      ApplyLastWins(env, before, k, v, after[..|after| - 1]);
    }
  }

  /** A variable no pair names keeps its previous value (or stays unset). */
  lemma {:induction false} ApplyUntouched(env: map<string, string>, pairs: seq<(string, string)>, k: string)
    requires forall j :: 0 <= j < |pairs| ==> pairs[j].0 != k
    ensures (k in Apply(env, pairs)) == (k in env)
    ensures k in env ==> Apply(env, pairs)[k] == env[k]
    decreases |pairs|
  {
    if |pairs| > 0 {
      ApplyUntouched(env, pairs[..|pairs| - 1], k);
    }
  }

  const DefaultNames: seq<string> := ["DATABASE_URI", "CLIENT_URL", "BASE_URL", "BASE_PATH", "PORT"]
  const DefaultValues: seq<string> :=
    ["mongodb://localhost:27017", "http://localhost:3000", "http://localhost:8000", "", "8000"]

  /** One `if std::env::var(name).is_err() { set_var(name, value) }`. */
  function WithDefault(env: map<string, string>, name: string, value: string): (r: map<string, string>)
    ensures name in r && (name !in env ==> r[name] == value)
    ensures forall k :: k in env ==> k in r && r[k] == env[k]
    ensures forall k :: k in r ==> k in env || k == name
  {
    if name in env then env else env[name := value]
  }

  /** Each default is set only if its variable is still unset, in the source's order. */
  function WithDefaults(env: map<string, string>): (r: map<string, string>)
    ensures forall i :: 0 <= i < 5 ==> DefaultNames[i] in r
    ensures forall i :: 0 <= i < 5 ==> DefaultNames[i] !in env ==> r[DefaultNames[i]] == DefaultValues[i]
    ensures forall k :: k in env ==> k in r && r[k] == env[k]
    ensures forall k :: k in r ==> k in env || k in DefaultNames
  {
    var e1 := WithDefault(env, "DATABASE_URI", "mongodb://localhost:27017");
    var e2 := WithDefault(e1, "CLIENT_URL", "http://localhost:3000");
    var e3 := WithDefault(e2, "BASE_URL", "http://localhost:8000");
    var e4 := WithDefault(e3, "BASE_PATH", "");
    WithDefault(e4, "PORT", "8000")
  }

  /** Decimal text of a natural number, most significant digit first. */
  function Decimal(n: nat): (s: string)
    ensures |s| >= 1
    decreases n
  {
    if n < 10 then [DigitChar(n)] else Decimal(n / 10) + [DigitChar(n % 10)]
  }

  function DigitChar(d: nat): char
    requires d < 10
  {
    ['0', '1', '2', '3', '4', '5', '6', '7', '8', '9'][d]
  }

  predicate IsDigit(c: char) { '0' as int <= c as int <= '9' as int }

  function DigitsValue(s: string): nat
    requires forall i :: 0 <= i < |s| ==> IsDigit(s[i])
  {
    if |s| == 0 then 0
    else
      assert IsDigit(s[|s| - 1]);
      DigitsValue(s[..|s| - 1]) * 10 + (s[|s| - 1] as int - '0' as int)
  }

  /** Rust `str::parse::<u16>`: an optional `+`, then one or more decimal
      digits whose value fits in sixteen bits. */
  function ParseU16(s: string): (r: Option<nat>)
    ensures r.Some? ==> r.value < 0x1_0000
    ensures r.Some? ==> |s| >= 1
  {
    var digits := if |s| > 0 && s[0] == '+' then s[1..] else s;
    if |digits| == 0 || exists i :: 0 <= i < |digits| && !IsDigit(digits[i]) then None
    else if DigitsValue(digits) < 0x1_0000 then Some(DigitsValue(digits))
    else None
  }

  lemma {:induction false} DecimalDigits(n: nat)
    ensures forall i :: 0 <= i < |Decimal(n)| ==> IsDigit(Decimal(n)[i])
    ensures DigitsValue(Decimal(n)) == n
    decreases n
  {
    var s := Decimal(n);
    if n >= 10 {
      DecimalDigits(n / 10);
      assert s[..|s| - 1] == Decimal(n / 10);
    }
  }

  /** Every port number printed in decimal parses back to itself. */
  lemma ParsePortRoundTrip(n: nat)
    requires n < 0x1_0000
    ensures ParseU16(Decimal(n)) == Some(n)
  {
    DecimalDigits(n);
    assert Decimal(n)[0] != '+';
  }

  /** The process environment, as `std::env` holds it. */
  class Environment {
    var vars: map<string, string>

    constructor (initial: map<string, string>)
      ensures vars == initial
    {
      vars := initial;
    }

    /** `load_env`: apply each `.env` pair in file order when the file could
        be read (`file` is its text), then set the missing defaults. A pair
        `set_var` refuses panics and ends start-up there. */
    method LoadEnv(file: Option<string>) returns (panicked: bool)
      modifies this
      ensures panicked <==> file.Some? && PanicAt(Pairs(file.value)) < |Pairs(file.value)|
      ensures panicked ==> vars == Apply(old(vars), Pairs(file.value)[..PanicAt(Pairs(file.value))])
      ensures !panicked && file.Some? ==> vars == WithDefaults(Apply(old(vars), Pairs(file.value)))
      ensures file.None? ==> vars == WithDefaults(old(vars))
    {
      panicked := false;
      if file.Some? {
        var pairs := Pairs(file.value);
        panicked := SetAll(pairs);
        if panicked {
          return;
        }
        assert pairs[..PanicAt(pairs)] == pairs;
      }
      SetDefaults();
    }

    /** The `for (key, value) in lines` loop: one `set_var` per pair, up to
        the first that panics. */
    method SetAll(pairs: seq<(string, string)>) returns (panicked: bool)
      modifies this
      ensures panicked <==> PanicAt(pairs) < |pairs|
      ensures vars == Apply(old(vars), pairs[..PanicAt(pairs)])
    {
      for i := 0 to |pairs|
        invariant forall j :: 0 <= j < i ==> !SetVarPanics(pairs[j].0, pairs[j].1)
        invariant vars == Apply(old(vars), pairs[..i])
      {
        if SetVarPanics(pairs[i].0, pairs[i].1) {
          assert PanicAt(pairs) == i;
          return true;
        }
        assert pairs[..i + 1][..i] == pairs[..i];
        vars := vars[pairs[i].0 := pairs[i].1];
      }
      assert pairs[..|pairs|] == pairs;
      return false;
    }

    /** The five `if std::env::var(..).is_err()` defaults. */
    method SetDefaults()
      modifies this
      ensures vars == WithDefaults(old(vars))
    {
      ghost var e0 := vars;
      if "DATABASE_URI" !in vars {
        vars := vars["DATABASE_URI" := "mongodb://localhost:27017"];
      }
      ghost var e1 := vars;
      assert e1 == WithDefault(e0, "DATABASE_URI", "mongodb://localhost:27017");
      if "CLIENT_URL" !in vars {
        vars := vars["CLIENT_URL" := "http://localhost:3000"];
      }
      ghost var e2 := vars;
      assert e2 == WithDefault(e1, "CLIENT_URL", "http://localhost:3000");
      if "BASE_URL" !in vars {
        vars := vars["BASE_URL" := "http://localhost:8000"];
      }
      ghost var e3 := vars;
      assert e3 == WithDefault(e2, "BASE_URL", "http://localhost:8000");
      if "BASE_PATH" !in vars {
        vars := vars["BASE_PATH" := ""];
      }
      ghost var e4 := vars;
      assert e4 == WithDefault(e3, "BASE_PATH", "");
      if "PORT" !in vars {
        vars := vars["PORT" := "8000"];
      }
      assert vars == WithDefault(e4, "PORT", "8000");
    }
  }

  /** The listening port read in `main`; a value that is not a u16 stops
      start-up with INVALID_PORT. */
  function StartupPort(vars: map<string, string>): (r: Result<nat>)
    requires "PORT" in vars
    ensures r.Ok? <==> ParseU16(vars["PORT"]).Some?
    ensures r.Ok? ==> r.value < 0x1_0000
    ensures r.Err? ==> r.error == "INVALID_PORT"
  {
    match ParseU16(vars["PORT"])
    case Some(p) => Ok(p)
    case None => Err("INVALID_PORT")
  }

  /** Without a PORT anywhere, the server listens on 8000. */
  lemma DefaultPort(env: map<string, string>)
    requires "PORT" !in env
    ensures StartupPort(WithDefaults(env)) == Ok(8000)
  {
    assert WithDefaults(env)["PORT"] == "8000" by {
      assert DefaultNames[4] == "PORT" && DefaultValues[4] == "8000";
    }
    assert Decimal(8000) == "8000" by {
      assert Decimal(8) == "8";
      assert Decimal(80) == "80";
      assert Decimal(800) == "800";
    }
    ParsePortRoundTrip(8000);
  }
}

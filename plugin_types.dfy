/**
 The data declared in the plugin header: the integration parameters `Param`,
 the three-component `state`, the execution context a host sets on the
 plugin, and the text `operator<<` writes for a `Param`.
 */
module PluginTypes {
  import opened Decimal

  /** `std::array<double, 3>`: the components at indices 0, 1 and 2. */
  datatype State = State(x: real, y: real, z: real)

  const Origin := State(0.0, 0.0, 0.0)

  /** The five fields of `Param`, in declaration order. */
  datatype Param = Param(sigma: real, rho: real, beta: real, dt: real, step: int)

  /** `Param param = {}`: value-initialisation sets every field to zero. */
  const ZeroParam := Param(0.0, 0.0, 0.0, 0.0, 0)

  /** The host's execution context: the plugin distinguishes `predict` and `obsgen`. */
  datatype Context = None | Predict | Obsgen

  predicate NoNewline(s: string) {
    '\n' !in s
  }

  lemma StartsWith(a: string, b: string)
    ensures (a + b)[..|a|] == a
  {
  }

  lemma EndsWith(a: string, b: string)
    ensures (a + b)[|a|..] == b && (a + b)[|a + b| - |b|..] == b
  {
  }

  /**
   `os << param`: one `label value` line per field, in declaration order; the
   first four end in a newline, the `step` line does not. `fmt` is the
   stream's text for a double. Read back line by line, the text gives
   exactly the five labelled lines, in that order, when no value's text
   holds a newline; nothing follows the `step` line.
   */
  function ParamText(p: Param, fmt: real -> string): (r: string)
    ensures NoNewline(fmt(p.sigma)) && NoNewline(fmt(p.rho)) && NoNewline(fmt(p.beta)) && NoNewline(fmt(p.dt)) ==>
      SplitLines(r) ==
        ["sigma " + fmt(p.sigma), "rho " + fmt(p.rho), "beta " + fmt(p.beta),
         "dt " + fmt(p.dt), "step " + IntText(p.step)]
  {
    var t := IntText(p.step);
    var r := "sigma " + fmt(p.sigma) + "\n" +
      ("rho " + fmt(p.rho) + "\n" +
      ("beta " + fmt(p.beta) + "\n" +
      ("dt " + fmt(p.dt) + "\n" +
      ("step " + t))));
    assert NoNewline(fmt(p.sigma)) && NoNewline(fmt(p.rho)) && NoNewline(fmt(p.beta)) && NoNewline(fmt(p.dt)) ==>
      SplitLines(r) == ["sigma " + fmt(p.sigma), "rho " + fmt(p.rho), "beta " + fmt(p.beta), "dt " + fmt(p.dt), "step " + t]
    by {
      if NoNewline(fmt(p.sigma)) && NoNewline(fmt(p.rho)) && NoNewline(fmt(p.beta)) && NoNewline(fmt(p.dt)) {
        IntTextNoNewline(p.step);
        LabelledNoNewline("sigma ", fmt(p.sigma));
        LabelledNoNewline("rho ", fmt(p.rho));
        LabelledNoNewline("beta ", fmt(p.beta));
        LabelledNoNewline("dt ", fmt(p.dt));
        LabelledNoNewline("step ", t);
        FiveLines("sigma " + fmt(p.sigma), "rho " + fmt(p.rho), "beta " + fmt(p.beta), "dt " + fmt(p.dt), "step " + t);
      }
    }
    r
  }

  lemma IntTextNoNewline(i: int)
    ensures NoNewline(IntText(i))
  {
    var t := IntText(i);
    forall j | 0 <= j < |t| ensures t[j] != '\n' {
      if i < 0 && j > 0 {
        assert t[j] == t[1..][j - 1];
      }
    }
  }

  /** The lines of a text: the pieces between newlines, the last one possibly empty. */
  function SplitLines(s: string): (r: seq<string>)
    ensures |r| >= 1
  {
    if s == [] then [""]
    else
      var rest := SplitLines(s[1..]);
      if s[0] == '\n' then [""] + rest else [[s[0]] + rest[0]] + rest[1..]
  }

  lemma {:induction false} SplitNoNewline(a: string)
    requires NoNewline(a)
    ensures SplitLines(a) == [a]
  {
    if a != [] {
      SplitNoNewline(a[1..]);
      assert [a[0]] + a[1..] == a;
    }
  }

  /** A newline-free piece followed by a newline is a line of its own. */
  lemma {:induction false} SplitAtNewline(a: string, b: string)
    requires NoNewline(a)
    ensures SplitLines(a + "\n" + b) == [a] + SplitLines(b)
  {
    if a == [] {
      assert a + "\n" + b == "\n" + b;
      assert ("\n" + b)[1..] == b;
    } else {
      assert (a + "\n" + b)[1..] == a[1..] + "\n" + b;
      assert (a + "\n" + b)[0] == a[0];
      SplitAtNewline(a[1..], b);
      assert [a[0]] + a[1..] == a;
    }
  }

  /** Five newline-free pieces joined by newlines read back as those five lines. */
  lemma FiveLines(l1: string, l2: string, l3: string, l4: string, l5: string)
    requires NoNewline(l1) && NoNewline(l2) && NoNewline(l3) && NoNewline(l4) && NoNewline(l5)
    ensures SplitLines(l1 + "\n" + (l2 + "\n" + (l3 + "\n" + (l4 + "\n" + l5))))
         == [l1, l2, l3, l4, l5]
  {
    SplitNoNewline(l5);
    SplitAtNewline(l4, l5);
    SplitAtNewline(l3, l4 + "\n" + l5);
    SplitAtNewline(l2, l3 + "\n" + (l4 + "\n" + l5));
    SplitAtNewline(l1, l2 + "\n" + (l3 + "\n" + (l4 + "\n" + l5)));
  }

  /** A label followed by a newline-free value holds no newline. */
  lemma LabelledNoNewline(tag: string, value: string)
    requires NoNewline(tag) && NoNewline(value)
    ensures NoNewline(tag + value)
  {
  }
}

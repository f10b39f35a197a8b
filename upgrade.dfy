/** The `upgrade` command's reading of its `from:to` argument: the direction of
    the change, the name of the upgrade function to look up, and the errors. */
module UpgradeCommand {
  import opened Strings
  import opened Outcomes

  datatype UpgradeError =
    /** `version_from, version_to = versions.split(':')` found other than two parts. */
    | UnpackError
    /** `CommandError` raised when no upgrade function has the computed name. */
    | CommandError(message: string)

  datatype Upgrade = Upgrade(direction: string, methodName: string)

  /** `'upgrade_{}'.format(versions.replace('.', '').replace(':', '_'))`. */
  function MethodName(versions: string): string {
    "upgrade_" + Replace(Replace(versions, ".", ""), ":", "_")
  }

  /** The decision `handle` makes before reading any input; `available` is
      the set of function names the upgrade module defines. */
  function PlanUpgrade(versions: string, available: set<string>): Result<Upgrade, UpgradeError> {
    var parts := Split(versions, ':');
    if |parts| != 2 then Err(UnpackError)
    else
      var direction := if Less(parts[0], parts[1]) then "up" else "down";
      var name := MethodName(versions);
      if name in available then Ok(Upgrade(direction, name))
      else Err(CommandError(direction + "grade from " + Replace(versions, ":", " to ") + " is not supported"))
  }

  /** For `from:to` with one colon: the plan succeeds exactly when the
      derived name is available; the direction is `up` iff `from < to` in
      string order (equal versions go `down`); the name is `upgrade_` with
      the dots of each side dropped and `_` between them; otherwise the
      error names the direction and both versions. */
  lemma {:induction false} PlanOfPair(from: string, to: string, available: set<string>)
    requires ':' !in from && ':' !in to
    ensures var name := "upgrade_" + Replace(from, ".", "") + "_" + Replace(to, ".", "");
            var direction := if Less(from, to) then "up" else "down";
            PlanUpgrade(from + ":" + to, available) ==
              if name in available then Ok(Upgrade(direction, name))
              else Err(CommandError(direction + "grade from " + from + " to " + to + " is not supported"))
  {
    var versions := from + ":" + to;
    SplitAtOne(from, to, ':');
    ReplaceOneChar(from, to, ':', " to ");
    MethodNameOfPair(from, to);
    assert Split(versions, ':') == [from, to];
    assert Replace(versions, ":", " to ") == from + " to " + to;
    var direction := if Less(from, to) then "up" else "down";
    assert direction + "grade from " + Replace(versions, ":", " to ") + " is not supported"
        == direction + "grade from " + from + " to " + to + " is not supported";
  }

  /** The derived name drops the dots of each side and joins them with `_`. */
  lemma {:induction false} MethodNameOfPair(from: string, to: string)
    requires ':' !in from && ':' !in to
    ensures MethodName(from + ":" + to) == "upgrade_" + Replace(from, ".", "") + "_" + Replace(to, ".", "")
  {
    var f, t := Replace(from, ['.'], ""), Replace(to, ['.'], "");
    ReplaceCharConcat(from + [':'], to, '.', "");
    ReplaceCharConcat(from, [':'], '.', "");
    ReplaceAbsentChar([':'], '.', "");
    assert Replace(from + [':'] + to, ['.'], "") == f + [':'] + t;
    ReplaceCharKeepsOut(from, '.', "", ':');
    ReplaceCharKeepsOut(to, '.', "", ':');
    ReplaceOneChar(f, t, ':', "_");
    assert "." == ['.'] && ":" == [':'];
  }

  /** Equal versions are a downgrade. */
  lemma EqualVersionsGoDown(v: string, available: set<string>)
    requires ':' !in v
    requires PlanUpgrade(v + ":" + v, available).Ok?
    ensures PlanUpgrade(v + ":" + v, available).value.direction == "down"
  {
    PlanOfPair(v, v, available);
    LessIrreflexive(v);
  }

  /** An argument without a colon cannot be unpacked. */
  lemma NoColonFails(versions: string, available: set<string>)
    requires ':' !in versions
    ensures PlanUpgrade(versions, available) == Err(UnpackError)
  {
    SplitNone(versions, ':');
  }

  /** The usage `ocdskit upgrade 1.0:1.1` names `upgrade_10_11`. */
  lemma ExampleMethodName(versions: string)
    requires versions == "1.0:1.1"
    ensures MethodName(versions) == "upgrade_10_11"
  {
    var one, zero := "1", "0";
    ReplaceOneChar(one, zero, '.', "");
    ReplaceOneChar(one, one, '.', "");
    var from, to := one + ['.'] + zero, one + ['.'] + one;
    assert "." == ['.'];
    MethodNameOfPair(from, to);
    assert versions == from + ":" + to;
  }
}

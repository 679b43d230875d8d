/**
 * The permissions of a file as an option set of bit flags: Read = 1,
 * Write = 2, Execute = 4. The raw value, a 64-bit signed integer, is kept
 * as its two's-complement bit pattern, so that membership and union are
 * the bitwise `&` and `|` of the option set.
 */
module FilePermissionSets {

  datatype FilePermissions = FilePermissions(rawValue: bv64) {

    /** Every flag of `member` is set in this set. */
    predicate Contains(member: FilePermissions) {
      rawValue & member.rawValue == member.rawValue
    }

    /** The set with the flags of both. */
    function Union(other: FilePermissions): FilePermissions {
      FilePermissions(rawValue | other.rawValue)
    }
  }

  const Read: FilePermissions := FilePermissions(1)
  const Write: FilePermissions := FilePermissions(2)
  const Execute: FilePermissions := FilePermissions(4)

  /** The flags in the order `description` visits them. */
  const Flags: seq<FilePermissions> := [Read, Write, Execute]

  /** The type name that prefixes a description. */
  const TypeName: string := "FilePermissions"

  /** The name `description` writes for a flag. */
  function Name(flag: FilePermissions): string {
    if flag == Read then "Read"
    else if flag == Write then "Write"
    else if flag == Execute then "Execute"
    else ""
  }

  /** The names of the flags of `flags` that `p` contains, in the order of `flags`. */
  function NamesIn(p: FilePermissions, flags: seq<FilePermissions>): seq<string>
    decreases |flags|
  {
    if flags == [] then []
    else
      var last := flags[|flags| - 1];
      NamesIn(p, flags[..|flags| - 1]) + if p.Contains(last) then [Name(last)] else []
  }

  /** `names` separated by ", ", with no separator before the first or after the last. */
  function Join(names: seq<string>): string
    decreases |names|
  {
    if names == [] then ""
    else if |names| == 1 then names[0]
    else Join(names[..|names| - 1]) + ", " + names[|names| - 1]
  }

  /** What `description` yields for `p`. */
  function DescriptionOf(p: FilePermissions): string {
    TypeName + "[" + Join(NamesIn(p, Flags)) + "]"
  }

  /** Joining one more name appends it, after a separator unless it is the first. */
  lemma JoinSnoc(names: seq<string>, name: string)
    ensures Join(names + [name]) == if names == [] then name else Join(names) + ", " + name
  {
    assert (names + [name])[..|names|] == names;
  }

  /** Visiting one more flag appends its name when `p` contains it. */
  lemma NamesInStep(p: FilePermissions, flags: seq<FilePermissions>, i: nat)
    requires i < |flags|
    ensures NamesIn(p, flags[..i + 1])
         == NamesIn(p, flags[..i]) + if p.Contains(flags[i]) then [Name(flags[i])] else []
  {
    assert flags[..i + 1][..i] == flags[..i];
  }

  /** The three flags are the single bits 1, 2 and 4. */
  lemma FlagValues()
    ensures Read.rawValue == 1 && Write.rawValue == 2 && Execute.rawValue == 4
    ensures Read.Union(Write).Union(Execute).rawValue == 7
  {
  }

  /** Building a set from a raw value keeps the raw value. */
  lemma RawValueKept(rawValue: bv64)
    ensures FilePermissions(rawValue).rawValue == rawValue
    ensures FilePermissions(rawValue).Contains(Read) <==> rawValue & 1 == 1
    ensures FilePermissions(rawValue).Contains(Write) <==> rawValue & 2 == 2
    ensures FilePermissions(rawValue).Contains(Execute) <==> rawValue & 4 == 4
  {
  }

  /** A join of non-empty names starts with the first name and ends with the last:
      there is no leading or trailing separator. */
  lemma {:induction false} JoinEnds(names: seq<string>)
    requires |names| > 0
    ensures names[0] <= Join(names)
    ensures |names[|names| - 1]| <= |Join(names)|
    ensures Join(names)[|Join(names)| - |names[|names| - 1]|..] == names[|names| - 1]
    decreases |names|
  {
    if |names| > 1 {
      var init := names[..|names| - 1];
      JoinEnds(init);
      assert init[0] == names[0];
    }
  }

  /** Nothing but the empty name list joins to the empty string. */
  lemma {:induction false} JoinEmpty(names: seq<string>)
    requires forall i :: 0 <= i < |names| ==> names[i] != ""
    ensures Join(names) == "" <==> names == []
    decreases |names|
  {
    if |names| > 1 {
      JoinEmpty(names[..|names| - 1]);
    }
  }

  /** The description names the contained flags in the order Read, Write, Execute. */
  lemma DescriptionNamesInOrder(p: FilePermissions)
    ensures NamesIn(p, Flags)
         == (if p.Contains(Read) then ["Read"] else [])
          + (if p.Contains(Write) then ["Write"] else [])
          + (if p.Contains(Execute) then ["Execute"] else [])
  {
    var r := if p.Contains(Read) then ["Read"] else [];
    var w := if p.Contains(Write) then ["Write"] else [];
    var x := if p.Contains(Execute) then ["Execute"] else [];
    assert Flags[..2] == [Read, Write] && [Read, Write][..1] == [Read] && [Read][..0] == [];
    assert NamesIn(p, [Read]) == r;
    assert NamesIn(p, [Read, Write]) == r + w;
    assert NamesIn(p, Flags) == NamesIn(p, [Read, Write]) + x;
  }

  /** Raw value 0 describes as "FilePermissions[]". */
  lemma DescriptionOfNone()
    ensures DescriptionOf(FilePermissions(0)) == "FilePermissions[]"
  {
    DescriptionNamesInOrder(FilePermissions(0));
  }

  /** The three names joined. */
  lemma JoinAllNames()
    ensures Join(["Read", "Write", "Execute"]) == "Read, Write, Execute"
  {
    JoinSnoc(["Read"], "Write");
    JoinSnoc(["Read", "Write"], "Execute");
    assert ["Read", "Write"] + ["Execute"] == ["Read", "Write", "Execute"];
  }

  /** Raw value 7 describes as "FilePermissions[Read, Write, Execute]". */
  lemma DescriptionOfAll()
    ensures DescriptionOf(FilePermissions(7)) == "FilePermissions[Read, Write, Execute]"
  {
    var all := FilePermissions(7);
    DescriptionNamesInOrder(all);
    assert all.Contains(Read) && all.Contains(Write) && all.Contains(Execute);
    assert NamesIn(all, Flags) == ["Read", "Write", "Execute"];
    JoinAllNames();
  }

  /** The description depends only on the bits 1, 2 and 4 of the raw value. */
  lemma DescriptionIgnoresOtherBits(a: FilePermissions, b: FilePermissions)
    requires a.rawValue & 7 == b.rawValue & 7
    ensures DescriptionOf(a) == DescriptionOf(b)
  {
    DescriptionNamesInOrder(a);
    DescriptionNamesInOrder(b);
    assert a.Contains(Read) == b.Contains(Read) by {
      assert a.rawValue & 1 == (a.rawValue & 7) & 1;
      assert b.rawValue & 1 == (b.rawValue & 7) & 1;
    }
    assert a.Contains(Write) == b.Contains(Write) by {
      assert a.rawValue & 2 == (a.rawValue & 7) & 2;
      assert b.rawValue & 2 == (b.rawValue & 7) & 2;
    }
    assert a.Contains(Execute) == b.Contains(Execute) by {
      assert a.rawValue & 4 == (a.rawValue & 7) & 4;
      assert b.rawValue & 4 == (b.rawValue & 7) & 4;
    }
  }

  /** One step of `description`: a separator unless nothing is written yet, then the flag's name. */
  method AppendName(description: string, permission: FilePermissions) returns (d: string)
    ensures d == description + (if description != "" then ", " else "") + Name(permission)
    ensures permission in Flags ==> d != ""
  {
    d := description + if description != "" then ", " else "";
    if permission == Read {
      d := d + "Read";
    } else if permission == Write {
      d := d + "Write";
    } else if permission == Execute {
      d := d + "Execute";
    }
  }

  /** Visiting flag `i` of `flags` keeps the loop invariant of `description`. */
  lemma DescriptionStep(p: FilePermissions, flags: seq<FilePermissions>, i: nat, description: string)
    requires i < |flags| && Name(flags[i]) != ""
    requires description == Join(NamesIn(p, flags[..i]))
    requires description == "" <==> NamesIn(p, flags[..i]) == []
    ensures var next := if p.Contains(flags[i])
                        then description + (if description != "" then ", " else "") + Name(flags[i])
                        else description;
            next == Join(NamesIn(p, flags[..i + 1])) && (next == "" <==> NamesIn(p, flags[..i + 1]) == [])
  {
    NamesInStep(p, flags, i);
    var before := NamesIn(p, flags[..i]);
    if p.Contains(flags[i]) {
      var name := Name(flags[i]);
      JoinSnoc(before, name);
      if description == "" {
        assert description + "" + name == name;
      }
    } else {
      assert before + [] == before;
    }
  }

  /** `description`: the contained flags' names, built by a loop over the three flags. */
  method Description(p: FilePermissions) returns (s: string)
    ensures s == DescriptionOf(p)
  {
    var description := "";
    var i := 0;
    while i < |Flags|
      invariant 0 <= i <= |Flags|
      invariant description == Join(NamesIn(p, Flags[..i]))
      invariant description == "" <==> NamesIn(p, Flags[..i]) == []
    {
      var permission := Flags[i];
      DescriptionStep(p, Flags, i, description);
      if p.Contains(permission) {
        description := AppendName(description, permission);
      }
      i := i + 1;
    }
    assert Flags[..|Flags|] == Flags;
    s := TypeName + "[" + description + "]";
  }

  /** `init(forPath:)`: Read iff readable, Write iff writable, Execute iff executable.
      The three answers about the file are the inputs. */
  method ForPath(isReadable: bool, isWritable: bool, isExecutable: bool) returns (p: FilePermissions)
    ensures p.Contains(Read) <==> isReadable
    ensures p.Contains(Write) <==> isWritable
    ensures p.Contains(Execute) <==> isExecutable
    ensures p.rawValue <= 7
  {
    var permissions := FilePermissions(0);
    if isReadable {
      permissions := permissions.Union(Read);
    }
    if isWritable {
      permissions := permissions.Union(Write);
    }
    if isExecutable {
      permissions := permissions.Union(Execute);
    }
    p := permissions;
  }
}

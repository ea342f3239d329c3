/**
 The processor architectures of `src/sys/architecture.rs`: each has a list of names it is
 known by, the first of which is the one it is displayed with.
 */
module Architectures {

  datatype Architecture = Amd64 | ARM | Unknown {

    /**
     `Architecture::detect`: the target's architecture string (`std::env::consts::ARCH`)
     `"x86_64"` is Amd64, `"arm"` is ARM and anything else is unknown. A detected
     architecture is always known by the string it was detected from.
     */
    static function Detect(arch: string): (a: Architecture)
      ensures a == Amd64 <==> arch == "x86_64"
      ensures a == ARM <==> arch == "arm"
      ensures a != Unknown ==> arch in a.Value()
    {
      if arch == "x86_64" then Amd64
      else if arch == "arm" then ARM
      else Unknown
    }

    /** `value`: the names of the architecture, never an empty list and never an empty name. */
    function Value(): (aliases: seq<string>)
      ensures |aliases| > 0
      ensures forall i :: 0 <= i < |aliases| ==> aliases[i] != ""
    {
      match this
      case Amd64 => ["amd64", "x64", "x86_64"]
      case ARM => ["arm"]
      case Unknown => ["unknown"]
    }

    /**
     The `Display` of an architecture: one of its names, the first, so taking it never fails.
     `From` maps it back for Amd64 and Unknown, but not for ARM.
     */
    function Display(): (s: string)
      ensures s != "" && s in Value()
      ensures From(s) == this <==> this != ARM
    {
      Value()[0]
    }

    /**
     `From<&str>`: only `"amd64"` is recognised, as Amd64; every other string, other names of
     Amd64 and ARM's own name included, is unknown. So no string gives ARM.
     */
    static function From(v: string): (a: Architecture)
      ensures a == Amd64 <==> v == "amd64"
      ensures a != ARM
    {
      if v == "amd64" then Amd64 else Unknown
    }

    /**
     Intended parsing: a reverse lookup of the string among the names of every architecture,
     unknown when no architecture has that name.
     */
    static function FromAlias(v: string): (a: Architecture)
      ensures a != Unknown ==> v in a.Value()
      ensures v in Amd64.Value() ==> a == Amd64
      ensures v in ARM.Value() ==> a == ARM
    {
      if v in Amd64.Value() then Amd64
      else if v in ARM.Value() then ARM
      else Unknown
    }
  }

  /** No name belongs to two architectures. */
  lemma AliasesDisjoint(a: Architecture, b: Architecture, s: string)
    requires s in a.Value() && s in b.Value()
    ensures a == b
  {
  }

  /** ARM's displayed name is not parsed back to ARM. */
  lemma ArmRoundTripFails()
    ensures Architecture.From(ARM.Display()) == Unknown
  {
  }

  /** Names of Amd64 other than `"amd64"` are not recognised either. */
  lemma FromIgnoresAliases()
    ensures Architecture.From("x64") == Unknown
    ensures Architecture.From("x86_64") == Unknown
    ensures Architecture.From("arm") == Unknown
  {
  }

  /** The reverse lookup accepts every name of every architecture... */
  lemma FromAliasAcceptsEveryName(a: Architecture, s: string)
    requires s in a.Value()
    ensures Architecture.FromAlias(s) == a
  {
    AliasesDisjoint(a, Architecture.FromAlias(s), s);
  }

  /** ...and so parses every displayed name back to its architecture. */
  lemma FromAliasRoundTrip(a: Architecture)
    ensures Architecture.FromAlias(a.Display()) == a
  {
    FromAliasAcceptsEveryName(a, a.Display());
  }
}

/** Member specs of the ZooKeeper ensemble: reading a role out of one and putting one in. */
module MemberSpecs {

  datatype Role = Participant | Observer

  function Word(r: Role): string { if r == Participant then "participant" else "observer" }

  /** What precedes the first `c`; the whole text when there is none. */
  function UpTo(s: string, c: char): (p: string)
    ensures |p| <= |s| && p == s[..|p|] && c !in p
    ensures |p| < |s| ==> s[|p|] == c
  {
    if s == [] || s[0] == c then [] else [s[0]] + UpTo(s[1..], c)
  }

  /** The address half of a spec, and the rest from the `;` on. */
  function Address(spec: string): string { UpTo(spec, ';') }

  function ClientPart(spec: string): string { spec[|Address(spec)|..] }

  predicate EndsWith(s: string, t: string) { |t| <= |s| && s[|s| - |t|..] == t }

  function RoleOf(spec: string): Role { if EndsWith(Address(spec), ":observer") then Observer else Participant }

  function HostIn(address: string): string { UpTo(UpTo(address, '|'), ':') }

  function HostOf(spec: string): string { HostIn(Address(spec)) }

  /** The address without the one role it may end with. */
  function WithoutRole(address: string): string {
    if EndsWith(address, ":participant") then address[..|address| - 12]
    else if EndsWith(address, ":observer") then address[..|address| - 9]
    else address
  }

  function WithRole(spec: string, r: Role): string {
    WithoutRole(Address(spec)) + (":" + Word(r)) + ClientPart(spec)
  }

  // ---- only the role changes --------------------------------------------------------------

  lemma {:induction false} UpToStops(s: string, t: string, c: char)
    requires c !in s && (t == [] || t[0] == c)
    ensures UpTo(s + t, c) == s
  {
    if s == [] {
      assert s + t == t;
    } else {
      assert (s + t)[1..] == s[1..] + t;
      UpToStops(s[1..], t, c);
    }
  }

  lemma {:induction false} UpToEarlier(s: string, t: string, c: char)
    requires c in s
    ensures UpTo(s + t, c) == UpTo(s, c)
  {
    if s[0] != c {
      assert (s + t)[1..] == s[1..] + t;
      UpToEarlier(s[1..], t, c);
    } else {
      assert (s + t)[0] == c;
    }
  }

  lemma {:induction false} UpToSkips(s: string, t: string, c: char)
    requires c !in s
    ensures UpTo(s + t, c) == s + UpTo(t, c)
  {
    if s == [] {
      assert s + t == t && s + UpTo(t, c) == UpTo(t, c);
    } else {
      assert (s + t)[1..] == s[1..] + t;
      UpToSkips(s[1..], t, c);
    }
  }

  /** A colon and anything after it, put at the end of an address, leave its host what it was. */
  lemma HostIgnoresSuffix(address: string, suffix: string)
    requires suffix != [] && suffix[0] == ':'
    ensures HostIn(address + suffix) == HostIn(address)
  {
    if '|' in address {
      UpToEarlier(address, suffix, '|');
    } else {
      UpToSkips(address, suffix, '|');
      UpToSkips(address, [], '|');
      assert address + [] == address;
      var tail := UpTo(suffix, '|');
      assert tail != [] && tail[0] == ':';
      if ':' in address {
        UpToEarlier(address, tail, ':');
      } else {
        UpToStops(address, tail, ':');
        UpToStops(address, [], ':');
      }
    }
  }

  lemma StrippedHost(address: string)
    ensures HostIn(WithoutRole(address)) == HostIn(address)
  {
    var kept := WithoutRole(address);
    if kept != address {
      var suffix := address[|kept|..];
      assert address == kept + suffix;
      assert suffix[0] == ':';
      HostIgnoresSuffix(kept, suffix);
    }
  }

  lemma WordsEnd(kept: string, r: Role)
    ensures EndsWith(kept + (":" + Word(r)), ":observer") <==> r == Observer
  {
    var s := kept + (":" + Word(r));
    if r == Observer {
      assert s[|s| - 9..] == ":observer";
    } else {
      assert s[|s| - 1] == 't' && ":observer"[8] == 'r';
      assert s[|s| - 9..][8] == s[|s| - 1];
    }
  }

  lemma WordsAreClean(r: Role)
    ensures ';' !in ":" + Word(r)
  {
  }

  lemma CleanAddress(spec: string)
    ensures ';' !in WithoutRole(Address(spec))
  {
    var kept := WithoutRole(Address(spec));
    assert kept == Address(spec)[..|kept|];
  }

  lemma WrittenAddress(spec: string, r: Role)
    ensures Address(WithRole(spec, r)) == WithoutRole(Address(spec)) + (":" + Word(r))
    ensures ClientPart(WithRole(spec, r)) == ClientPart(spec)
  {
    var kept := WithoutRole(Address(spec));
    var written := kept + (":" + Word(r));
    CleanAddress(spec);
    WordsAreClean(r);
    UpToStops(written, ClientPart(spec), ';');
  }

  /** The spec written for a role reads back as that role, with the host and the client part it had. */
  lemma RoleReadsBack(spec: string, r: Role)
    ensures RoleOf(WithRole(spec, r)) == r
    ensures HostOf(WithRole(spec, r)) == HostOf(spec)
    ensures ClientPart(WithRole(spec, r)) == ClientPart(spec)
  {
    var kept := WithoutRole(Address(spec));
    WrittenAddress(spec, r);
    WordsEnd(kept, r);
    StrippedHost(Address(spec));
    HostIgnoresSuffix(kept, ":" + Word(r));
  }

  /** Of roles set one after the other only the last is left. */
  lemma LastRoleWins(spec: string, r: Role, q: Role)
    ensures WithRole(WithRole(spec, q), r) == WithRole(spec, r)
  {
    var kept := WithoutRole(Address(spec));
    WrittenAddress(spec, q);
    RoleStrips(kept, q);
  }

  lemma RoleStrips(kept: string, q: Role)
    ensures WithoutRole(kept + (":" + Word(q))) == kept
  {
    var s := kept + (":" + Word(q));
    WordsEnd(kept, q);
    if q == Observer {
      assert s[|s| - 1] == 'r' && ":participant"[11] == 't';
      if |s| >= 12 { assert s[|s| - 12..][11] == s[|s| - 1]; }
      assert s[..|s| - 9] == kept;
    } else {
      assert s[|s| - 12..] == ":participant";
      assert s[..|s| - 12] == kept;
    }
  }
}

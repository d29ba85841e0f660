/** Who authored a message (matw-core, role.rs). */
module Roles {

  import opened Wrappers

  datatype Role = User | Assistant | System | Tool

  /** `Display`: the lowercase name of the variant. */
  function Display(r: Role): string
  {
    match r
    case User => "user"
    case Assistant => "assistant"
    case System => "system"
    case Tool => "tool"
  }

  /** serde's `rename_all = "lowercase"` reading of a role name. */
  function Parse(s: string): (r: Option<Role>)
    ensures r.Some? ==> Display(r.value) == s
  {
    if s == "user" then Some(User)
    else if s == "assistant" then Some(Assistant)
    else if s == "system" then Some(System)
    else if s == "tool" then Some(Tool)
    else None
  }

  /** The JSON text of a role: its lowercase name in double quotes. */
  function Serialize(r: Role): (j: string)
    ensures |j| == |Display(r)| + 2 && j[0] == '"' && j[|j| - 1] == '"'
    ensures j[1..|j| - 1] == Display(r)
  {
    "\"" + Display(r) + "\""
  }

  /** Reads a role back from its JSON text; anything else is an error. */
  function Deserialize(j: string): (r: Option<Role>)
    ensures r.Some? ==> Serialize(r.value) == j
  {
    if |j| >= 2 && j[0] == '"' && j[|j| - 1] == '"' then
      var r := Parse(j[1..|j| - 1]);
      if r.Some? then
        assert j == "\"" + j[1..|j| - 1] + "\"";
        r
      else None
    else None
  }

  /** Parsing the printed name gives the role back. */
  lemma ParseDisplay(r: Role)
    ensures Parse(Display(r)) == Some(r)
  {
  }

  /** The four names are pairwise distinct: Display is injective. */
  lemma DisplayInjective(r1: Role, r2: Role)
    ensures Display(r1) == Display(r2) ==> r1 == r2
  {
  }

  /** Serializing and then deserializing gives the role back. */
  lemma {:induction false} SerializeRoundTrip(r: Role)
    ensures Deserialize(Serialize(r)) == Some(r)
  {
    var j := Serialize(r);
    assert j[1..|j| - 1] == Display(r);
    ParseDisplay(r);
  }
}

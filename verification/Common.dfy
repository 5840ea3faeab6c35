/** What the other modules share. */
module Common {

  datatype Option<+T> = None | Some(value: T) {
    function GetOr(default: T): T {
      if Some? then value else default
    }
  }

  /** The entry of `m` at `k`, if there is one. */
  function Lookup<K, V>(m: map<K, V>, k: K): Option<V> {
    if k in m then Some(m[k]) else None
  }

  /** What is left of a string that is handed on as a C string. */
  function UpToNul(bytes: string): string {
    if bytes == "" || bytes[0] == '\0' then "" else [bytes[0]] + UpToNul(bytes[1..])
  }

  lemma {:induction false} CleanStays(s: string)
    requires '\0' !in s
    ensures UpToNul(s) == s
  {
    if s != "" {
      CleanStays(s[1..]);
      assert s == [s[0]] + s[1..];
    }
  }
}

/**
 JSON pointers, RFC 6901, as `serde_json::Value::pointer` evaluates them.
 */
module JsonPointer {
  import opened Wrappers
  import opened Json
  import opened Text

  /** Section 4: `~1` stands for a slash and `~0` for a tilde. */
  function Unescape(token: string): string {
    if |token| >= 2 && token[0] == '~' && token[1] == '1' then "/" + Unescape(token[2..])
    else if |token| >= 2 && token[0] == '~' && token[1] == '0' then "~" + Unescape(token[2..])
    else if token == "" then ""
    else [token[0]] + Unescape(token[1..])
  }

  function Escape(key: string): (token: string)
    ensures '/' !in token
  {
    if key == "" then ""
    else (if key[0] == '/' then "~1" else if key[0] == '~' then "~0" else [key[0]]) + Escape(key[1..])
  }

  /** An array index: digits without a leading zero. */
  function ParseIndex(token: string): Option<nat> {
    if token == "" || (token[0] == '0' && |token| != 1) then None else ParseDigits(token, 0)
  }

  function Walk(v: Value, tokens: seq<string>): Option<Value> {
    if tokens == [] then Some(v)
    else
      match v
      case Obj(fields) => if tokens[0] in fields then Walk(fields[tokens[0]], tokens[1..]) else None
      case Arr(items) =>
        var index := ParseIndex(tokens[0]);
        if index.Some? && index.value < |items| then Walk(items[index.value], tokens[1..]) else None
      case _ => None
  }

  function Unescaped(tokens: seq<string>): seq<string> {
    seq(|tokens|, i requires 0 <= i < |tokens| => Unescape(tokens[i]))
  }

  function Pointer(root: Value, pointer: string): Option<Value> {
    if pointer == "" then Some(root)
    else if pointer[0] != '/' then None
    else Walk(root, Unescaped(Split(pointer, {'/'})[1..]))
  }

  // ---- a printed pointer leads where its path leads ----------------------------------------

  function Escaped(path: seq<string>): seq<string> {
    seq(|path|, i requires 0 <= i < |path| => Escape(path[i]))
  }

  function Print(path: seq<string>): string {
    if path == [] then "" else Join([""] + Escaped(path), '/')
  }

  lemma {:induction false} UnescapeEscape(key: string)
    ensures Unescape(Escape(key)) == key
  {
    if key != "" {
      var rest := Escape(key[1..]);
      UnescapeEscape(key[1..]);
      var head := if key[0] == '/' then "~1" else if key[0] == '~' then "~0" else [key[0]];
      assert (head + rest)[|head|..] == rest;
    }
  }

  lemma PrintedPointers(root: Value, path: seq<string>)
    ensures Pointer(root, Print(path)) == Walk(root, path)
  {
    if path != [] {
      var tokens := [""] + Escaped(path);
      SplitJoin(tokens, '/', {'/'});
      forall i | 0 <= i < |path| ensures Unescape(Escape(path[i])) == path[i] {
        UnescapeEscape(path[i]);
      }
      assert tokens[1..] == Escaped(path) && Unescaped(Escaped(path)) == path;
      assert Print(path)[0] == '/';
    }
  }
}

/** The two scanners over template values, and what validation is worth for rendering. */
module ProfileScanners {
  import opened Wrappers
  import opened Text
  import opened ProfileTemplates

  datatype Machine = Machine(hostname: string, sshPublicKey: string)

  const KEY_NAME := "ssh_public_key"
  const HOST_NAME := "hostname"

  predicate Supported(name: string) {
    name == KEY_NAME || name == HOST_NAME
  }

  function Value(name: string, vm: Machine): string
    requires Supported(name)
  {
    if name == KEY_NAME then TrimSpace(vm.sshPublicKey) else vm.hostname
  }

  // ----- rendering

  // An unknown placeholder stays as it was written.
  function Substitute(body: string, vm: Machine): string {
    if Supported(TrimSpace(body)) then Value(TrimSpace(body), vm) else "{{" + body + "}}"
  }

  function Render(t: Template, vm: Machine): string {
    match t
    case End(text) => text
    case Open(text, rest) => text + "{{" + rest
    case Hole(text, body, next) => text + Substitute(body, vm) + Render(next, vm)
  }

  // What a scanner has in hand when it finds "{{" and no "}}" behind it.
  lemma CutOpen(value: string, start: nat)
    requires start == Index(value, "{{") && Index(value[start + 2..], "}}") == -1
    ensures Parse(value) == Open(value[..start], value[start + 2..])
    ensures value[start..] == "{{" + value[start + 2..]
  {
    assert value[start..start + 2] == "{{";
  }

  // What it has in hand when it finds both.
  lemma CutHole(value: string, start: nat, end: nat)
    requires start == Index(value, "{{") && end == Index(value[start + 2..], "}}")
    ensures start + 2 + end + 2 <= |value|
    ensures var body, rest := value[start + 2..start + 2 + end], value[start + 2 + end + 2..];
            && Parse(value) == Hole(value[..start], body, Parse(rest))
            && value[start..start + 2 + end + 2] == "{{" + body + "}}"
  {
    var tail := After(value, start);
    assert value[start + 2..start + 2 + end] == tail[..end];
    assert value[start + 2 + end + 2..] == After(tail, end);
    assert value[start..start + 2] == "{{" && tail[end..end + 2] == "}}";
    assert value[start + 2 + end..start + 2 + end + 2] == tail[end..end + 2];
  }

  lemma RenderHole(out: string, text: string, body: string, next: Template, vm: Machine)
    ensures out + text + Substitute(body, vm) + Render(next, vm) == out + Render(Hole(text, body, next), vm)
  {
  }

  method RenderProfileValue(value: string, vm: Machine) returns (out: string)
    ensures out == Render(Parse(value), vm)
  {
    out := "";
    var remaining := value;
    while true
      invariant out + Render(Parse(remaining), vm) == Render(Parse(value), vm)
      decreases |remaining|
    {
      var start := Index(remaining, "{{");
      if start == -1 {
        return out + remaining;
      }
      ghost var before := out;
      out := out + remaining[..start];
      var end := Index(remaining[start + 2..], "}}");
      if end == -1 {
        CutOpen(remaining, start);
        out := out + remaining[start..];
        assert out == before + Render(Parse(remaining), vm);
        return;
      }
      CutHole(remaining, start, end);
      ghost var body := remaining[start + 2..start + 2 + end];
      ghost var rest := remaining[start + 2 + end + 2..];
      RenderHole(before, remaining[..start], body, Parse(rest), vm);
      var written := WritePlaceholder(remaining, start, end, vm);
      out := out + written;
      remaining := remaining[start + 2 + end + 2..];
    }
  }

  // One turn of the scanner's switch: what is written for the placeholder at start.
  method WritePlaceholder(remaining: string, start: nat, end: nat, vm: Machine) returns (written: string)
    requires start == Index(remaining, "{{") && end == Index(remaining[start + 2..], "}}")
    ensures start + 2 + end + 2 <= |remaining|
    ensures written == Substitute(remaining[start + 2..start + 2 + end], vm)
  {
    CutHole(remaining, start, end);
    var placeholder := TrimSpace(remaining[start + 2..start + 2 + end]);
    if placeholder == "ssh_public_key" {
      written := TrimSpace(vm.sshPublicKey);
    } else if placeholder == "hostname" {
      written := vm.hostname;
    } else {
      written := remaining[start..start + 2 + end + 2];
    }
  }

  // ----- what rendering writes, said on the strings

  ghost predicate Braceless(s: string) {
    '{' !in s && '}' !in s
  }

  lemma NoPairWithout(s: string, c: char)
    requires c !in s
    ensures !Contains(s, [c, c])
  {
    forall i | 0 <= i <= |s| - 2 ensures !Occurs(s, [c, c], i) {
      assert s[i..i + 2][0] == s[i];
    }
  }

  // A value without "{{" stays as it is.
  lemma PlainStays(value: string, vm: Machine)
    requires !Contains(value, "{{")
    ensures Render(Parse(value), vm) == value
  {
  }

  // The first placeholder becomes the trimmed key, the hostname, or, under any other name, itself; what
  // follows is rendered in the same way.
  lemma PlaceholderIsWritten(pre: string, body: string, post: string, vm: Machine)
    requires LiteralOk(pre) && BodyOk(body)
    ensures Render(Parse(pre + "{{" + (body + "}}" + post)), vm) ==
            pre
            + (match TrimSpace(body)
               case "ssh_public_key" => TrimSpace(vm.sshPublicKey)
               case "hostname" => vm.hostname
               case _ => "{{" + body + "}}")
            + Render(Parse(post), vm)
  {
    ParseHole(pre, body, post);
  }

  lemma BlanksAreTrimmed(name: string)
    requires name != "" && !IsSpace(name[0]) && !IsSpace(name[|name| - 1])
    ensures TrimSpace(" " + name + " ") == name
  {
    var s := " " + name + " ";
    assert s[1..] == name + " " && (name + " ")[..|name|] == name;
    assert TrimLeft(s) == TrimLeft(name + " ") == name + " ";
    assert TrimRight(name + " ") == TrimRight(name) == name;
  }

  lemma Padded(name: string, body: string, placeholder: string)
    requires name != "" && !IsSpace(name[0]) && !IsSpace(name[|name| - 1]) && Braceless(name)
    requires body == " " + name + " " && placeholder == "{{ " + name + " }}"
    ensures TrimSpace(body) == name && Braceless(body) && placeholder == "{{" + body + "}}"
  {
    BlanksAreTrimmed(name);
  }

  lemma KeyPlaceholder()
    ensures TrimSpace(" ssh_public_key ") == "ssh_public_key" && Braceless(" ssh_public_key ")
    ensures "{{ ssh_public_key }}" == "{{" + " ssh_public_key " + "}}"
  {
    hide TrimSpace;
    Padded("ssh_public_key", " ssh_public_key ", "{{ ssh_public_key }}");
    hide *;
  }

  lemma HostnamePlaceholder()
    ensures TrimSpace(" hostname ") == "hostname" && Braceless(" hostname ")
    ensures "{{ hostname }}" == "{{" + " hostname " + "}}"
  {
    hide TrimSpace;
    Padded("hostname", " hostname ", "{{ hostname }}");
    hide *;
  }

  // What an entry of a profile becomes on a machine with this key and this hostname.
  ghost predicate Filled(value: string, out: string, key: string, hostname: string) {
    && (!Contains(value, "{{") ==> out == value)
    && (forall pre, post | Braceless(pre) && Braceless(post) && value == pre + "{{ ssh_public_key }}" + post ::
          out == pre + TrimSpace(key) + post)
    && (forall pre, post | Braceless(pre) && Braceless(post) && value == pre + "{{ hostname }}" + post ::
          out == pre + hostname + post)
  }

  lemma AroundPlaceholder(pre: string, body: string, post: string)
    ensures pre + "{{" + (body + "}}" + post) == pre + ("{{" + body + "}}") + post
  {
  }

  // A supported name between texts without braces.
  lemma BetweenBraceless(pre: string, body: string, placeholder: string, post: string, vm: Machine)
    requires Braceless(pre) && Braceless(body) && Braceless(post) && placeholder == "{{" + body + "}}"
    ensures TrimSpace(body) == "ssh_public_key" ==>
              Render(Parse(pre + placeholder + post), vm) == pre + TrimSpace(vm.sshPublicKey) + post
    ensures TrimSpace(body) == "hostname" ==> Render(Parse(pre + placeholder + post), vm) == pre + vm.hostname + post
  {
    NoPairWithout(pre, '{');
    NoPairWithout(body, '}');
    NoPairWithout(post, '{');
    PlaceholderIsWritten(pre, body, post, vm);
    PlainStays(post, vm);
    AroundPlaceholder(pre, body, post);
    hide Render, Parse, Contains, TrimSpace;
  }

  lemma KeyIsWritten(pre: string, post: string, vm: Machine)
    requires Braceless(pre) && Braceless(post)
    ensures Render(Parse(pre + "{{ ssh_public_key }}" + post), vm) == pre + TrimSpace(vm.sshPublicKey) + post
  {
    hide *;
    KeyPlaceholder();
    BetweenBraceless(pre, " ssh_public_key ", "{{ ssh_public_key }}", post, vm);
  }

  lemma HostnameIsWritten(pre: string, post: string, vm: Machine)
    requires Braceless(pre) && Braceless(post)
    ensures Render(Parse(pre + "{{ hostname }}" + post), vm) == pre + vm.hostname + post
  {
    hide *;
    HostnamePlaceholder();
    BetweenBraceless(pre, " hostname ", "{{ hostname }}", post, vm);
  }

  lemma RenderingFills(value: string, key: string, hostname: string)
    ensures Filled(value, Render(Parse(value), Machine(hostname, key)), key, hostname)
  {
    var vm := Machine(hostname, key);
    if !Contains(value, "{{") { PlainStays(value, vm); }
    hide Render, Parse, Braceless, Contains, TrimSpace;
    forall pre, post | Braceless(pre) && Braceless(post) && value == pre + "{{ ssh_public_key }}" + post
      ensures Render(Parse(value), vm) == pre + TrimSpace(key) + post
    {
      KeyIsWritten(pre, post, vm);
    }
    forall pre, post | Braceless(pre) && Braceless(post) && value == pre + "{{ hostname }}" + post
      ensures Render(Parse(value), vm) == pre + hostname + post
    {
      HostnameIsWritten(pre, post, vm);
    }
  }

  // ----- validation

  datatype Problem = Unterminated | Unsupported(name: string)

  function FirstProblem(t: Template): Option<Problem> {
    match t
    case End(_) => None
    case Open(_, _) => Some(Unterminated)
    case Hole(_, body, next) =>
      if Supported(TrimSpace(body)) then FirstProblem(next) else Some(Unsupported(TrimSpace(body)))
  }

  method ValidatePlaceholders(value: string) returns (problem: Option<Problem>)
    ensures problem == FirstProblem(Parse(value))
  {
    var remaining := value;
    while true
      invariant FirstProblem(Parse(remaining)) == FirstProblem(Parse(value))
      decreases |remaining|
    {
      var start := Index(remaining, "{{");
      if start == -1 {
        return None;
      }
      var end := Index(remaining[start + 2..], "}}");
      if end == -1 {
        CutOpen(remaining, start);
        return Some(Unterminated);
      }
      CutHole(remaining, start, end);
      var placeholder := TrimSpace(remaining[start + 2..start + 2 + end]);
      if placeholder != "ssh_public_key" && placeholder != "hostname" {
        return Some(Unsupported(placeholder));
      }
      remaining := remaining[start + 2 + end + 2..];
    }
  }

  ghost predicate Closed(t: Template) {
    match t
    case End(_) => true
    case Open(_, _) => false
    case Hole(_, _, next) => Closed(next)
  }

  function Bodies(t: Template): seq<string> {
    match t
    case End(_) => []
    case Open(_, _) => []
    case Hole(_, body, next) => [body] + Bodies(next)
  }

  // Every placeholder is closed and its trimmed name is supported.
  ghost predicate Clean(t: Template) {
    Closed(t) && forall b | b in Bodies(t) :: Supported(TrimSpace(b))
  }

  // Validation accepts exactly the clean values, and otherwise names the first offence.
  lemma {:induction false} ValidationIsExact(t: Template)
    ensures FirstProblem(t).None? <==> Clean(t)
    ensures FirstProblem(t) == Some(Unterminated) ==>
              !Closed(t) && forall b | b in Bodies(t) :: Supported(TrimSpace(b))
    ensures FirstProblem(t).Some? && FirstProblem(t).value.Unsupported? ==>
              exists k ::
                && 0 <= k < |Bodies(t)| && TrimSpace(Bodies(t)[k]) == FirstProblem(t).value.name
                && !Supported(FirstProblem(t).value.name)
                && forall i | 0 <= i < k :: Supported(TrimSpace(Bodies(t)[i]))
  {
    match t
    case End(_) =>
    case Open(_, _) =>
    case Hole(_, body, next) =>
      ValidationIsExact(next);
      assert Bodies(t)[0] == body && Bodies(t)[1..] == Bodies(next);
      if !Supported(TrimSpace(body)) {
        assert body in Bodies(t);
      } else {
        if FirstProblem(next).Some? && FirstProblem(next).value.Unsupported? {
          var name := FirstProblem(next).value.name;
          var k :| 0 <= k < |Bodies(next)| && TrimSpace(Bodies(next)[k]) == name
            && forall i | 0 <= i < k :: Supported(TrimSpace(Bodies(next)[i]));
          assert Bodies(t)[k + 1] == Bodies(next)[k];
          forall i | 0 <= i < k + 1 ensures Supported(TrimSpace(Bodies(t)[i])) {
            if i > 0 { assert Bodies(t)[i] == Bodies(next)[i - 1]; }
          }
        }
      }
  }

  // ----- what a validated value renders to

  // Pure substitution: no case for an unterminated or an unknown placeholder.
  ghost function Fill(t: Template, vm: Machine): string
    requires Clean(t)
  {
    match t
    case End(text) => text
    case Hole(text, body, next) =>
      assert body in Bodies(t);
      assert forall b | b in Bodies(next) :: b in Bodies(t);
      text + Value(TrimSpace(body), vm) + Fill(next, vm)
  }

  lemma {:induction false} CleanRenderIsFill(t: Template, vm: Machine)
    requires Clean(t)
    ensures Render(t, vm) == Fill(t, vm)
  {
    match t
    case End(_) =>
    case Hole(_, body, next) =>
      assert body in Bodies(t);
      assert forall b | b in Bodies(next) :: b in Bodies(t);
      CleanRenderIsFill(next, vm);
  }

  // Neither text to be substituted contains an opening brace.
  ghost predicate BraceFree(vm: Machine) {
    '{' !in TrimSpace(vm.sshPublicKey) && '{' !in vm.hostname
  }

  lemma NoPairAcross(a: string, b: string)
    requires !Contains(a, "{{") && !Contains(b, "{{") && (a != "" ==> a[|a| - 1] != '{')
    ensures !Contains(a + b, "{{")
  {
    forall i | 0 <= i <= |a + b| - 2 ensures !Occurs(a + b, "{{", i) {
      var w := (a + b)[i..i + 2];
      if i + 2 <= |a| {
        assert w == a[i..i + 2];
        assert !Occurs(a, "{{", i);
      } else if i >= |a| {
        assert w == b[i - |a|..i - |a| + 2];
        assert !Occurs(b, "{{", i - |a|);
      } else {
        assert w[0] == a[|a| - 1] && "{{"[0] == '{';
      }
    }
  }

  lemma NoPairWithoutBrace(s: string)
    requires '{' !in s
    ensures !Contains(s, "{{")
  {
    forall i | 0 <= i <= |s| - 2 ensures !Occurs(s, "{{", i) {
      assert s[i..i + 2][0] == s[i] && "{{"[0] == '{';
    }
  }

  lemma {:induction false} CleanRenderHasNoPair(t: Template, vm: Machine)
    requires Canonical(t) && Clean(t) && BraceFree(vm)
    ensures !Contains(Render(t, vm), "{{")
  {
    match t
    case End(_) =>
    case Hole(text, body, next) =>
      assert body in Bodies(t);
      assert forall b | b in Bodies(next) :: b in Bodies(t);
      var v := Substitute(body, vm);
      NoPairWithoutBrace(v);
      NoPairAcross(text, v);
      CleanRenderHasNoPair(next, vm);
      NoPairAcross(text + v, Render(next, vm));
  }

  lemma PairIn(a: string, b: string)
    ensures Contains(a + "{{" + b, "{{")
  {
    var s := a + "{{" + b;
    assert s[|a|..|a| + 2] == "{{";
    assert Occurs(s, "{{", |a|);
  }

  lemma PairInSuffix(a: string, b: string)
    requires Contains(b, "{{")
    ensures Contains(a + b, "{{")
  {
    var i :| Occurs(b, "{{", i);
    assert (a + b)[|a| + i..|a| + i + 2] == b[i..i + 2];
    assert Occurs(a + b, "{{", |a| + i);
  }

  lemma {:induction false} DirtyRenderHasPair(t: Template, vm: Machine)
    requires !Clean(t)
    ensures Contains(Render(t, vm), "{{")
  {
    match t
    case End(_) =>
    case Open(text, rest) => PairIn(text, rest);
    case Hole(text, body, next) =>
      if Supported(TrimSpace(body)) {
        DirtyRenderHasPair(next, vm);
        PairInSuffix(text + Substitute(body, vm), Render(next, vm));
      } else {
        PairIn(text, body + "}}" + Render(next, vm));
        assert Render(t, vm) == text + "{{" + (body + "}}" + Render(next, vm));
      }
  }

  // Validation is exactly what makes rendering clean: for texts without an opening brace, the result
  // is free of "{{" if and only if the value passes.
  lemma ValidatedExactlyWhenCleanlyRendered(value: string, vm: Machine)
    requires BraceFree(vm)
    ensures FirstProblem(Parse(value)).None? <==> !Contains(Render(Parse(value), vm), "{{")
  {
    ValidationIsExact(Parse(value));
    ParseCanonical(value);
    if Clean(Parse(value)) { CleanRenderHasNoPair(Parse(value), vm); } else { DirtyRenderHasPair(Parse(value), vm); }
  }

  // Rendering a validated value again changes nothing, whatever machine it is rendered for.
  lemma RenderingIsIdempotent(value: string, vm: Machine, other: Machine)
    requires BraceFree(vm)
    ensures var out := Render(Parse(value), vm);
            FirstProblem(Parse(value)).None? ==> Parse(out) == End(out) && Render(Parse(out), other) == out
  {
    var out := Render(Parse(value), vm);
    if FirstProblem(Parse(value)).None? {
      ValidatedExactlyWhenCleanlyRendered(value, vm);
      assert Index(out, "{{") == -1;
    }
  }
}

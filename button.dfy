/**
 * The shared button: its class list, built from the props as an array whose
 * falsy entries are dropped before the rest are joined with single spaces, and
 * the choice between rendering a link and rendering a button.
 *
 * A prop left out by the caller is `None`; the destructuring defaults apply
 * only then, so an explicit empty string stays empty.
 */
module Button {
  import opened Wrappers
  import opened Strings

  datatype Props = Props(
    href: Option<string>,
    variant: Option<string>,
    size: Option<string>,
    fullWidth: bool,
    disabled: bool,
    buttonType: Option<string>,
    ariaLabel: Option<string>,
    className: Option<string>,
    target: Option<string>,
    rel: Option<string>)

  /** `variant = 'primary'` */
  function Variant(p: Props): (variant: string) { p.variant.GetOr("primary") }

  /** `size = 'medium'` */
  function Size(p: Props): (size: string) { p.size.GetOr("medium") }

  /** `className = ''` */
  function ClassName(p: Props): (name: string) { p.className.GetOr("") }

  // ---------------------------------------------------------------------------
  // The class list
  // ---------------------------------------------------------------------------

  /** An entry of the class array: a string, or the `false` a failed `&&` leaves. */
  datatype Entry = Word(s: string) | False

  /** `Boolean(entry)` */
  predicate Truthy(e: Entry)
  {
    e.Word? && e.s != ""
  }

  /** `entries.filter(Boolean)`, as the strings that remain. */
  function KeepTruthy(entries: seq<Entry>): (words: seq<string>)
    ensures |words| <= |entries|
    ensures forall k :: 0 <= k < |words| ==> words[k] != ""
    decreases |entries|
  {
    if entries == [] then []
    else (if Truthy(entries[0]) then [entries[0].s] else []) + KeepTruthy(entries[1..])
  }

  /** `flag && word` */
  function IfSet(flag: bool, word: string): (entry: Entry)
  {
    if flag then Word(word) else False
  }

  /** The array literal of `buttonClasses`, before filtering. */
  function Entries(p: Props): (entries: seq<Entry>)
    ensures |entries| == 6
  {
    [Word("btn")] + ([Word("btn--" + Variant(p))] + ([Word("btn--" + Size(p))]
    + ([IfSet(p.fullWidth, "btn--full-width")] + ([IfSet(p.disabled, "btn--disabled")] + [Word(ClassName(p))]))))
  }

  /** `buttonClasses` */
  function ButtonClasses(p: Props): (classes: string)
  {
    Join(KeepTruthy(Entries(p)), ' ')
  }

  /** `[word]` when `present`, nothing otherwise. */
  function Optional(present: bool, word: string): (words: seq<string>)
    ensures |words| <= 1
  {
    if present then [word] else []
  }

  /**
   * The class words as the component intends them: the base class, the variant
   * and size modifiers, each flag's modifier when the flag is set, and the
   * caller's class when it is not empty.
   */
  function ClassWords(p: Props): (words: seq<string>)
    ensures |words| >= 3
  {
    ["btn"] + (["btn--" + Variant(p)] + (["btn--" + Size(p)]
    + (Optional(p.fullWidth, "btn--full-width") + (Optional(p.disabled, "btn--disabled")
    + Optional(ClassName(p) != "", ClassName(p))))))
  }

  /** What filtering keeps of one entry. */
  function Kept(e: Entry): (kept: seq<string>)
  {
    if Truthy(e) then [e.s] else []
  }

  lemma {:induction false} KeepTruthyCons(e: Entry, rest: seq<Entry>)
    ensures KeepTruthy([e] + rest) == Kept(e) + KeepTruthy(rest)
  {
    assert ([e] + rest)[1..] == rest;
  }

  lemma {:induction false} KeepTruthyOne(e: Entry)
    ensures KeepTruthy([e]) == Kept(e)
  {
    assert [e][1..] == [];
  }

  /** Filtering the array keeps exactly the intended words, in the array's order. */
  lemma {:induction false} KeptWordsAreClassWords(p: Props)
    ensures KeepTruthy(Entries(p)) == ClassWords(p)
  {
    var e0, e1, e2 := Word("btn"), Word("btn--" + Variant(p)), Word("btn--" + Size(p));
    var e3, e4, e5 := IfSet(p.fullWidth, "btn--full-width"), IfSet(p.disabled, "btn--disabled"), Word(ClassName(p));
    KeepTruthyOne(e5);
    KeepTruthyCons(e4, [e5]);
    KeepTruthyCons(e3, [e4] + [e5]);
    KeepTruthyCons(e2, [e3] + ([e4] + [e5]));
    KeepTruthyCons(e1, [e2] + ([e3] + ([e4] + [e5])));
    KeepTruthyCons(e0, [e1] + ([e2] + ([e3] + ([e4] + [e5]))));
    assert Kept(e0) == ["btn"];
    assert Kept(e1) == ["btn--" + Variant(p)];
    assert Kept(e2) == ["btn--" + Size(p)];
    assert Kept(e3) == Optional(p.fullWidth, "btn--full-width");
    assert Kept(e4) == Optional(p.disabled, "btn--disabled");
    assert Kept(e5) == Optional(ClassName(p) != "", ClassName(p));
  }

  /** The class string always begins with `btn btn--<variant> btn--<size>`. */
  lemma {:induction false} ClassesStartWithBase(p: Props)
    ensures StartsWith(ButtonClasses(p), "btn btn--" + Variant(p) + " btn--" + Size(p))
  {
    var v, s := "btn--" + Variant(p), "btn--" + Size(p);
    var rest := Optional(p.fullWidth, "btn--full-width") + (Optional(p.disabled, "btn--disabled")
                + Optional(ClassName(p) != "", ClassName(p)));
    KeptWordsAreClassWords(p);
    JoinCons("btn", [v] + ([s] + rest), ' ');
    JoinCons(v, [s] + rest, ' ');
    JoinStartsWithHead(s, rest, ' ');
    var tail := Join([s] + rest, ' ');
    StartsWithAppend(v + [' '], tail, s);
    StartsWithAppend("btn" + [' '], v + [' '] + tail, v + [' '] + s);
    BaseSpelling(Variant(p), Size(p));
  }

  lemma BaseSpelling(variant: string, size: string)
    ensures "btn" + [' '] + ("btn--" + variant + [' '] + ("btn--" + size))
         == "btn btn--" + variant + " btn--" + size
  {
  }

  /** Props whose strings are single class names, none of which is a flag's modifier. */
  predicate PlainNames(p: Props)
  {
    && ' ' !in Variant(p) && ' ' !in Size(p) && ' ' !in ClassName(p)
    && Variant(p) !in {"full-width", "disabled"} && Size(p) !in {"full-width", "disabled"}
    && ClassName(p) !in {"btn--full-width", "btn--disabled"}
  }

  /** No word of a list contains a space. */
  predicate SpaceFree(words: seq<string>)
  {
    forall k :: 0 <= k < |words| ==> ' ' !in words[k]
  }

  lemma {:induction false} SpaceFreeAppend(a: seq<string>, b: seq<string>)
    requires SpaceFree(a) && SpaceFree(b)
    ensures SpaceFree(a + b)
  {
    forall k | 0 <= k < |a + b| ensures ' ' !in (a + b)[k] {
      if k >= |a| {
        assert (a + b)[k] == b[k - |a|];
      }
    }
  }

  lemma {:induction false} PrefixedSpaceFree(prefix: string, word: string)
    requires ' ' !in prefix && ' ' !in word
    ensures SpaceFree([prefix + word])
  {
    forall c | c in prefix + word ensures c != ' ' {
      assert c in prefix || c in word;
    }
  }

  /**
   * With single class names the string's space-separated tokens are exactly
   * the intended words.
   */
  lemma {:induction false} TokensAreClassWords(p: Props)
    requires ' ' !in Variant(p) && ' ' !in Size(p) && ' ' !in ClassName(p)
    ensures Split(ButtonClasses(p), ' ') == ClassWords(p)
  {
    var f := Optional(p.fullWidth, "btn--full-width");
    var d := Optional(p.disabled, "btn--disabled");
    var c := Optional(ClassName(p) != "", ClassName(p));
    PrefixedSpaceFree("btn--", Variant(p));
    PrefixedSpaceFree("btn--", Size(p));
    assert SpaceFree(["btn"]) && SpaceFree(f) && SpaceFree(d) && SpaceFree(c);
    SpaceFreeAppend(d, c);
    SpaceFreeAppend(f, d + c);
    SpaceFreeAppend(["btn--" + Size(p)], f + (d + c));
    SpaceFreeAppend(["btn--" + Variant(p)], ["btn--" + Size(p)] + (f + (d + c)));
    SpaceFreeAppend(["btn"], ["btn--" + Variant(p)] + (["btn--" + Size(p)] + (f + (d + c))));
    KeptWordsAreClassWords(p);
    SplitJoin(ClassWords(p), ' ');
  }

  /**
   * With single class names no token is empty: the string has no leading,
   * trailing or double space, and an empty `className` adds nothing to it.
   */
  lemma {:induction false} NoEmptyToken(p: Props)
    requires ' ' !in Variant(p) && ' ' !in Size(p) && ' ' !in ClassName(p)
    ensures forall k :: 0 <= k < |Split(ButtonClasses(p), ' ')| ==> Split(ButtonClasses(p), ' ')[k] != ""
  {
    TokensAreClassWords(p);
    KeptWordsAreClassWords(p);
  }

  /** A modifier spelled from a name is that flag's modifier only when the name is the flag. */
  lemma {:induction false} ModifierNames(name: string, flag: string)
    ensures "btn--" + name == "btn--" + flag ==> name == flag
  {
    if "btn--" + name == "btn--" + flag {
      assert ("btn--" + name)[5..] == name;
      assert ("btn--" + flag)[5..] == flag;
    }
  }

  /** A word is a class of the button exactly when it is one of the intended words. */
  lemma {:induction false} ClassWordsMembership(p: Props, w: string)
    ensures w in ClassWords(p) <==>
              w == "btn" || w == "btn--" + Variant(p) || w == "btn--" + Size(p)
              || (p.fullWidth && w == "btn--full-width") || (p.disabled && w == "btn--disabled")
              || (ClassName(p) != "" && w == ClassName(p))
  {
  }

  /** Among the intended words, a flag's modifier appears exactly when the flag is set. */
  lemma {:induction false} ModifierWordIffFlag(p: Props, w: string, on: bool)
    requires PlainNames(p)
    requires (w == "btn--full-width" && on == p.fullWidth) || (w == "btn--disabled" && on == p.disabled)
    ensures w in ClassWords(p) <==> on
  {
    var flag := w[5..];
    assert w == "btn--" + flag;
    ClassWordsMembership(p, w);
    ModifierNames(Variant(p), flag);
    ModifierNames(Size(p), flag);
    assert |"btn--full-width"| != |"btn--disabled"|;
  }

  /** When no variant, size or className spells the modifier, `btn--full-width` is a class of the button exactly when `fullWidth` is set. */
  lemma {:induction false} FullWidthClassIffFullWidth(p: Props)
    requires PlainNames(p)
    ensures "btn--full-width" in Split(ButtonClasses(p), ' ') <==> p.fullWidth
  {
    TokensAreClassWords(p);
    ModifierWordIffFlag(p, "btn--full-width", p.fullWidth);
  }

  /** When no variant, size or className spells the modifier, `btn--disabled` is a class of the button exactly when `disabled` is set. */
  lemma {:induction false} DisabledClassIffDisabled(p: Props)
    requires PlainNames(p)
    ensures "btn--disabled" in Split(ButtonClasses(p), ' ') <==> p.disabled
  {
    TokensAreClassWords(p);
    ModifierWordIffFlag(p, "btn--disabled", p.disabled);
  }

  // ---------------------------------------------------------------------------
  // Link or button
  // ---------------------------------------------------------------------------

  /** What the component renders: a link when `href` is truthy, a button otherwise. */
  datatype Element =
    | Anchor(href: string, className: string, ariaLabel: Option<string>, target: Option<string>, rel: Option<string>)
    | NativeButton(buttonType: string, className: string, disabled: bool, ariaLabel: Option<string>)

  /** `if (href)`: a string is truthy when it is not empty. */
  predicate HasHref(p: Props)
  {
    p.href.Some? && p.href.value != ""
  }

  function Render(p: Props): (e: Element)
    ensures e.Anchor? <==> HasHref(p)
    ensures e.Anchor? ==> e.href == p.href.value && e.target == p.target && e.rel == p.rel
    ensures e.NativeButton? ==> e.buttonType == (if p.buttonType.Some? then p.buttonType.value else "button")
    ensures e.NativeButton? ==> e.disabled == p.disabled
    ensures e.className == ButtonClasses(p) && e.ariaLabel == p.ariaLabel
  {
    if HasHref(p) then Anchor(p.href.value, ButtonClasses(p), p.ariaLabel, p.target, p.rel)
    else NativeButton(p.buttonType.GetOr("button"), ButtonClasses(p), p.disabled, p.ariaLabel)
  }

  /**
   * A disabled link stays a link: it has no `disabled` attribute, and shows its
   * state only through the `btn--disabled` class.
   */
  lemma {:induction false} DisabledLinkShowsOnlyAClass(p: Props)
    requires HasHref(p) && p.disabled && PlainNames(p)
    ensures Render(p).Anchor?
    ensures "btn--disabled" in Split(Render(p).className, ' ')
  {
    DisabledClassIffDisabled(p);
  }
}

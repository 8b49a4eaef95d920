/**
 * Module-id handling of the HarmonyOS build plugin: which imports are
 * platform globals, the identifier such an import is bound to, the import
 * lines prepended to every chunk, and the Rollup `output.globals` resolver.
 */
module HarmonyGlobals {
  import opened Seqs
  import opened Strings

  /** Ids with a fixed global name (`commondGlobals`). */
  const CommonGlobals: map<string, string> := map["vue" := "Vue", "@vue/shared" := "uni.VueShared"]

  /** An entry of `harmonyGlobals`: an anchored regular expression or a literal id. */
  datatype GlobalPattern = Prefix(prefix: string) | Exact(id: string)

  /** `/^@ohos\./`, ..., `/^@system\./`, then the two literal ids, in source order. */
  const HarmonyGlobalPatterns: seq<GlobalPattern> := [
    Prefix("@ohos."), Prefix("@kit."), Prefix("@hms."), Prefix("@arkts."), Prefix("@system."),
    Exact("@ohos/hypium"), Exact("@ohos/hamock")
  ]

  predicate Matches(pattern: GlobalPattern, id: string) {
    match pattern
    case Prefix(p) => StartsWith(id, p)
    case Exact(name) => name == id
  }

  /** `isHarmoneyGlobal`: some pattern of `harmonyGlobals` matches `id`. */
  predicate IsHarmonyGlobal(id: string)
    ensures IsHarmonyGlobal(id) ==> StartsWith(id, "@")
  {
    exists i :: 0 <= i < |HarmonyGlobalPatterns| && Matches(HarmonyGlobalPatterns[i], id)
  }

  /** The pattern list spelled out: two literal ids and five prefixes. */
  lemma IsHarmonyGlobalIff(id: string)
    ensures IsHarmonyGlobal(id) <==>
      || id == "@ohos/hypium" || id == "@ohos/hamock"
      || StartsWith(id, "@ohos.") || StartsWith(id, "@kit.") || StartsWith(id, "@hms.")
      || StartsWith(id, "@arkts.") || StartsWith(id, "@system.")
  {
    var ps := HarmonyGlobalPatterns;
    if IsHarmonyGlobal(id) {
      var i :| 0 <= i < |ps| && Matches(ps[i], id);
      assert i in {0, 1, 2, 3, 4, 5, 6};
    } else {
      assert !Matches(ps[0], id) && !Matches(ps[1], id) && !Matches(ps[2], id) && !Matches(ps[3], id);
      assert !Matches(ps[4], id) && !Matches(ps[5], id) && !Matches(ps[6], id);
    }
  }

  /** What the replacement callback of `generateHarmonyImportSpecifier` returns for one character. */
  function SpecifierChar(ch: char): string {
    match ch
    case '.' => "_"
    case '/' => "__"
    case '@' => ""
    case _ => [ch]
  }

  /** `generateHarmonyImportSpecifier`: `.` to `_`, `/` to `__`, `@` dropped. */
  function ImportSpecifier(id: string): (r: string)
    ensures |r| <= 2 * |id|
  {
    if id == [] then [] else SpecifierChar(id[0]) + ImportSpecifier(id[1..])
  }

  /** The specifier holds no `@`, `.` or `/`. */
  lemma {:induction false} ImportSpecifierClean(id: string)
    ensures var r := ImportSpecifier(id); '@' !in r && '.' !in r && '/' !in r
  {
    if id != [] {
      ImportSpecifierClean(id[1..]);
      var head, tail := SpecifierChar(id[0]), ImportSpecifier(id[1..]);
      assert ImportSpecifier(id) == head + tail;
      assert '@' !in head && '.' !in head && '/' !in head;
    }
  }

  /** Each `/` adds one character and each `@` removes one. */
  lemma {:induction false} ImportSpecifierLength(id: string)
    ensures |ImportSpecifier(id)| == |id| + Occurrences(id, '/') - Occurrences(id, '@')
  {
    if id != [] {
      ImportSpecifierLength(id[1..]);
      assert |ImportSpecifier(id)| == |SpecifierChar(id[0])| + |ImportSpecifier(id[1..])|;
      assert Occurrences(id, '/') == (if id[0] == '/' then 1 else 0) + Occurrences(id[1..], '/');
      assert Occurrences(id, '@') == (if id[0] == '@' then 1 else 0) + Occurrences(id[1..], '@');
    }
  }

  lemma {:induction false} ImportSpecifierAppend(a: string, b: string)
    ensures ImportSpecifier(a + b) == ImportSpecifier(a) + ImportSpecifier(b)
  {
    if a == [] {
      assert a + b == b;
    } else {
      assert (a + b)[1..] == a[1..] + b;
      ImportSpecifierAppend(a[1..], b);
    }
  }

  /** Ids without `@`, `.` and `/` are their own specifier. */
  lemma {:induction false} ImportSpecifierKeeps(id: string)
    requires '@' !in id && '.' !in id && '/' !in id
    ensures ImportSpecifier(id) == id
  {
    if id != [] {
      ImportSpecifierKeeps(id[1..]);
      assert [id[0]] + id[1..] == id;
    }
  }

  /** Rewriting a specifier again changes nothing. */
  lemma ImportSpecifierIdempotent(id: string)
    ensures ImportSpecifier(ImportSpecifier(id)) == ImportSpecifier(id)
  {
    ImportSpecifierClean(id);
    ImportSpecifierKeeps(ImportSpecifier(id));
  }

  /** The three single-character passes, for one character. */
  lemma PassesChar(ch: char)
    ensures ReplaceAll(ReplaceAll(ReplaceAll([ch], '@', ""), '.', "_"), '/', "__") == SpecifierChar(ch)
  {
  }

  /** The three single-character passes distribute over concatenation. */
  lemma PassesAppend(a: string, b: string)
    ensures ReplaceAll(ReplaceAll(ReplaceAll(a + b, '@', ""), '.', "_"), '/', "__")
         == ReplaceAll(ReplaceAll(ReplaceAll(a, '@', ""), '.', "_"), '/', "__")
          + ReplaceAll(ReplaceAll(ReplaceAll(b, '@', ""), '.', "_"), '/', "__")
  {
    ReplaceAllAppend(a, b, '@', "");
    var a1, b1 := ReplaceAll(a, '@', ""), ReplaceAll(b, '@', "");
    ReplaceAllAppend(a1, b1, '.', "_");
    var a2, b2 := ReplaceAll(a1, '.', "_"), ReplaceAll(b1, '.', "_");
    ReplaceAllAppend(a2, b2, '/', "__");
  }

  /**
   * The single regular-expression pass equals three successive
   * single-character replacements, since no replacement text holds a
   * character a later pass rewrites.
   */
  lemma {:induction false} ImportSpecifierByPasses(id: string)
    ensures ImportSpecifier(id) == ReplaceAll(ReplaceAll(ReplaceAll(id, '@', ""), '.', "_"), '/', "__")
  {
    if id != [] {
      ImportSpecifierByPasses(id[1..]);
      assert id == [id[0]] + id[1..];
      PassesAppend([id[0]], id[1..]);
      PassesChar(id[0]);
    }
  }

  /** The statement `import <specifier> from '<id>';` emitted for one global. */
  function ImportLine(id: string): string {
    "import " + ImportSpecifier(id) + " from '" + id + "';"
  }

  /** `generateHarmonyImportExternalCode`: filter, map, `join('')`. */
  function ImportExternalCode(names: seq<string>): (r: string)
    ensures r == "" <==> forall i :: 0 <= i < |names| ==> !IsHarmonyGlobal(names[i])
  {
    var globals := Filter(IsHarmonyGlobal, names);
    var lines := Map(ImportLine, globals);
    assert globals == [] ==> lines == [];
    assert forall i :: 0 <= i < |lines| ==> |lines[i]| > 0;
    Concat(lines)
  }

  /** One name contributes its import line when it is a harmony global, and nothing otherwise. */
  lemma ImportExternalCodeSingle(id: string)
    ensures ImportExternalCode([id]) == if IsHarmonyGlobal(id) then ImportLine(id) else ""
  {
    assert [id][1..] == [];
    if IsHarmonyGlobal(id) {
      assert Map(ImportLine, [id]) == [ImportLine(id)];
      assert Concat([ImportLine(id)]) == ImportLine(id) + Concat([]);
    }
  }

  /** The code of a list is the code of its parts in order: input order is kept. */
  lemma ImportExternalCodeAppend(a: seq<string>, b: seq<string>)
    ensures ImportExternalCode(a + b) == ImportExternalCode(a) + ImportExternalCode(b)
  {
    FilterAppend(IsHarmonyGlobal, a, b);
    var fa, fb := Filter(IsHarmonyGlobal, a), Filter(IsHarmonyGlobal, b);
    MapAppend(ImportLine, fa, fb);
    ConcatAppend(Map(ImportLine, fa), Map(ImportLine, fb));
  }

  /** The `output.globals` function of the Rollup options. */
  function Globals(id: string): (r: string)
    ensures id in CommonGlobals ==> r == CommonGlobals[id]
    ensures id !in CommonGlobals && IsHarmonyGlobal(id) ==> r == ImportSpecifier(id)
    ensures id !in CommonGlobals && !IsHarmonyGlobal(id) ==> r == ""
  {
    if id in CommonGlobals && CommonGlobals[id] != "" then CommonGlobals[id]
    else if IsHarmonyGlobal(id) then ImportSpecifier(id)
    else ""
  }

  /** The resolver answers `''` exactly for ids that are neither fixed nor harmony globals. */
  lemma GlobalsEmptyIff(id: string)
    ensures Globals(id) == "" <==> id !in CommonGlobals && !IsHarmonyGlobal(id)
  {
    if id !in CommonGlobals && IsHarmonyGlobal(id) {
      IsHarmonyGlobalIff(id);
      assert |id| >= 2 && id[1] != '@' by {
        if StartsWith(id, "@ohos.") { assert id[..6] == "@ohos."; }
        else if StartsWith(id, "@kit.") { assert id[..5] == "@kit."; }
        else if StartsWith(id, "@hms.") { assert id[..5] == "@hms."; }
        else if StartsWith(id, "@arkts.") { assert id[..7] == "@arkts."; }
        else if StartsWith(id, "@system.") { assert id[..8] == "@system."; }
      }
      OccurrencesBelowLength(id, '@', 1);
      ImportSpecifierLength(id);
    }
  }
}

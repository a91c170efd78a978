/** Merging a regenerated section into a note (`_merge_generated_section` in `review.py`). */
module GeneratedRegion {
  import opened Text

  function StartMarker(): string { "<!-- pi-vault:generated:start -->" }

  function EndMarker(): string { "<!-- pi-vault:generated:end -->" }

  /** The generated text between its first start marker and the end marker after it, if any. */
  function Replacement(generated: string): string
    requires Occurs(generated, StartMarker())
  {
    var from := Find(generated, StartMarker(), 0);
    var body := generated[from + |StartMarker()|..];
    var to := Find(body, EndMarker(), 0);
    if to == -1 then body else body[..to]
  }

  predicate Carries(text: string) {
    Occurs(text, StartMarker()) && Occurs(text, EndMarker())
  }

  /** Index just past the first start marker. */
  function Opened(text: string): (i: nat)
    requires Occurs(text, StartMarker())
    ensures i <= |text|
  {
    Find(text, StartMarker(), 0) + |StartMarker()|
  }

  /** `_merge_generated_section`; None where the second `split` has nothing to unpack and raises. */
  function Merge(existing: string, generated: string): Option<string> {
    if !Carries(existing) || !Carries(generated) then Some(generated)
    else
      var rest := existing[Opened(existing)..];
      var end := Find(rest, EndMarker(), 0);
      if end == -1 then None
      else Some(existing[..Opened(existing)] + (Replacement(generated) + (EndMarker() + rest[end + |EndMarker()|..])))
  }

  /** The existing text has a region to overwrite: an end marker after its first start marker. */
  predicate HasRegion(text: string) {
    Occurs(text, StartMarker()) && Occurs(text[Opened(text)..], EndMarker())
  }

  /** Merging fails exactly when both texts carry both markers but the existing text has its end
      markers only before its first start marker. */
  lemma MergeRaisesIff(existing: string, generated: string)
    ensures Merge(existing, generated) == None <==> Carries(existing) && Carries(generated) && !HasRegion(existing)
  {
    hide StartMarker, EndMarker, Replacement;
    if Carries(existing) { FindOccurs(existing[Opened(existing)..], EndMarker()); }
  }

  /** Such a text: an end marker and then a start marker. */
  lemma MergeCanRaise()
    ensures Merge(EndMarker() + StartMarker(), StartMarker() + EndMarker()) == None
  {
    var start, end := StartMarker(), EndMarker();
    var existing, generated := end + start, start + end;
    MarkersUnbordered();
    assert |start| > |end| > 0;
    hide StartMarker, EndMarker, Unbordered;
    assert OccursAt(existing, start, |end|) && OccursAt(existing, end, 0);
    assert OccursAt(generated, start, 0) && OccursAt(generated, end, |start|);
    FirstMarker(end, start, "");
    assert end + (start + "") == existing;
    assert Opened(existing) == |existing| && existing[Opened(existing)..] == "";
    MergeRaisesIff(existing, generated);
  }

  lemma MarkersUnbordered()
    ensures Unbordered(StartMarker()) && Unbordered(EndMarker())
  {
  }

  lemma ReplacementHasNoEnd(generated: string)
    requires Occurs(generated, StartMarker())
    ensures !Occurs(Replacement(generated), EndMarker())
  {
    hide StartMarker, EndMarker;
    MarkersUnbordered();
    var body := generated[Opened(generated)..];
    var to := Find(body, EndMarker(), 0);
    FindFirst(body, EndMarker(), 0);
    if to != -1 {
      forall i | 0 <= i <= to ensures !OccursAt(body[..to], EndMarker(), i) {
        if i + |EndMarker()| <= to {
          OccursInPrefix(body[..to], body, EndMarker(), i, to);
        }
      }
    }
  }

  /** Index of the end marker that closes the region. */
  function Closed(text: string): (i: nat)
    requires HasRegion(text)
    ensures i <= |text| && Opened(text) <= i
  {
    FindOccurs(text[Opened(text)..], EndMarker());
    Opened(text) + Find(text[Opened(text)..], EndMarker(), 0)
  }

  /** Everything before the region's contents, and everything from its end marker on. */
  lemma MergeIsOverwrite(existing: string, generated: string)
    requires HasRegion(existing) && Carries(generated)
    ensures Merge(existing, generated)
         == Some(existing[..Opened(existing)] + (Replacement(generated) + existing[Closed(existing)..]))
  {
    hide StartMarker, EndMarker, Replacement;
    MarkersUnbordered();
    var i := Opened(existing);
    var rest := existing[i..];
    OccursSuffix(existing, EndMarker(), i);
    FindOccurs(existing, StartMarker());
    FindOccurs(rest, EndMarker());
    var e := Find(rest, EndMarker(), 0);
    assert rest[e..] == rest[e..e + |EndMarker()|] + rest[e + |EndMarker()|..];
    assert rest[e..] == existing[Closed(existing)..];
  }

  /** Putting new contents between the markers moves neither marker. */
  lemma RegionStays(text: string, r: string)
    requires HasRegion(text) && !Occurs(r, EndMarker())
    ensures var merged := text[..Opened(text)] + (r + text[Closed(text)..]);
            HasRegion(merged) && Opened(merged) == Opened(text) && Closed(merged) == Opened(text) + |r|
  {
    hide StartMarker, EndMarker;
    MarkersUnbordered();
    var i, e := Opened(text), Closed(text);
    var tail := text[e..];
    FindOccurs(text[i..], EndMarker());
    assert tail == EndMarker() + tail[|EndMarker()|..] by {
      assert OccursAt(text[i..], EndMarker(), e - i);
      assert text[i..][e - i..e - i + |EndMarker()|] == tail[..|EndMarker()|];
    }
    var merged := text[..i] + (r + tail);
    FindOccurs(text, StartMarker());
    FindInPrefix(text, merged, StartMarker(), i);
    assert merged[i..] == r + tail;
    FirstMarker(r, EndMarker(), tail[|EndMarker()|..]);
    assert OccursAt(merged, StartMarker(), i - |StartMarker()|);
    assert OccursAt(merged[i..], EndMarker(), |r|);
  }

  /** Merging preserves everything outside the region byte for byte, and puts the generated contents
      between markers that stay where they were. */
  lemma MergeKeepsOutside(existing: string, generated: string)
    requires HasRegion(existing) && Carries(generated)
    ensures Merge(existing, generated).Some?
    ensures var merged := Merge(existing, generated).value;
            && HasRegion(merged)
            && merged[..Opened(merged)] == existing[..Opened(existing)]
            && merged[Opened(merged)..Closed(merged)] == Replacement(generated)
            && merged[Closed(merged)..] == existing[Closed(existing)..]
  {
    hide StartMarker, EndMarker, Replacement, HasRegion;
    MergeIsOverwrite(existing, generated);
    ReplacementHasNoEnd(generated);
    RegionStays(existing, Replacement(generated));
  }

  /** Merging is an overwrite of the region: the last merge wins, so repeating one changes nothing. */
  lemma MergeOverwrites(existing: string, first: string, second: string)
    requires HasRegion(existing) && Carries(first) && Carries(second)
    ensures Merge(existing, first).Some? && Merge(Merge(existing, first).value, second) == Merge(existing, second)
  {
    hide StartMarker, EndMarker, Replacement, HasRegion, Merge;
    MergeKeepsOutside(existing, first);
    MergeIsOverwrite(existing, second);
    MergeIsOverwrite(Merge(existing, first).value, second);
  }

  /** Splitting at the first start marker and at the end marker after it. */
  lemma PartsFound(before: string, inside: string, after: string)
    requires !Occurs(before, StartMarker()) && !Occurs(inside, EndMarker())
    ensures var text := before + (StartMarker() + (inside + (EndMarker() + after)));
      && Carries(text) && Opened(text) == |before| + |StartMarker()|
      && text[Opened(text)..] == inside + (EndMarker() + after)
      && Find(text[Opened(text)..], EndMarker(), 0) == |inside|
  {
    MarkersUnbordered();
    hide StartMarker, EndMarker, Unbordered, Occurs;
    var rest := inside + (EndMarker() + after);
    var text := before + (StartMarker() + rest);
    FirstMarker(before, StartMarker(), rest);
    FindOccurs(text, StartMarker());
    assert text[|before| + |StartMarker()|..] == rest;
    FirstMarker(inside, EndMarker(), after);
    FindOccurs(rest, EndMarker());
    OccursSuffix(text, EndMarker(), |before| + |StartMarker()|);
  }

  /** What merging does, part by part: of the existing text only what is between its markers is replaced, by what
      is between the markers of the generated one. */
  lemma MergeSays(before: string, old_: string, after: string, front: string, new_: string, back: string)
    requires !Occurs(before, StartMarker()) && !Occurs(old_, EndMarker())
    requires !Occurs(front, StartMarker()) && !Occurs(new_, EndMarker())
    ensures Merge(before + (StartMarker() + (old_ + (EndMarker() + after))), front + (StartMarker() + (new_ + (EndMarker() + back))))
         == Some(before + (StartMarker() + (new_ + (EndMarker() + after))))
  {
    PartsFound(before, old_, after);
    PartsFound(front, new_, back);
    ReplacementIs(front, new_, back);
    var s, e := StartMarker(), EndMarker();
    hide StartMarker, EndMarker, Occurs, Find, Replacement, Opened, Carries;
    Slices(before, s, old_, e, after, new_);
  }

  lemma ReplacementIs(front: string, new_: string, back: string)
    requires !Occurs(front, StartMarker()) && !Occurs(new_, EndMarker())
    ensures var generated := front + (StartMarker() + (new_ + (EndMarker() + back)));
      Carries(generated) && Replacement(generated) == new_
  {
    PartsFound(front, new_, back);
    hide StartMarker, EndMarker, Occurs, Find;
    assert (new_ + (EndMarker() + back))[..|new_|] == new_;
  }

  lemma Slices(before: string, s: string, old_: string, e: string, after: string, new_: string)
    ensures (before + (s + (old_ + (e + after))))[..|before| + |s|] == before + s
    ensures (old_ + (e + after))[|old_| + |e|..] == after
    ensures (before + s) + (new_ + (e + after)) == before + (s + (new_ + (e + after)))
  {
  }

  /** When either text lacks a marker the generated text takes the place of the whole existing one. */
  lemma MergeReplaces(existing: string, generated: string)
    requires !Occurs(existing, StartMarker()) || !Occurs(existing, EndMarker())
          || !Occurs(generated, StartMarker()) || !Occurs(generated, EndMarker())
    ensures Merge(existing, generated) == Some(generated)
  {
    hide Occurs;
  }
}

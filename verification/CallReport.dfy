/**
  What a call report carries of a value (reportedValue and preview of src/callReport.ts): the value itself,
  or a description of one too large.
 */
module CallReport {
  import opened Utf16
  import opened Measuring
  import opened Previewing

  datatype Kind = OfText | OfJson
  datatype Reported =
    | Carried
    | TooLarge(kind: Kind, bytes: nat, exact: bool, preview: Preview)
    | TooLargeBinary(bytes: nat)
    | Thrown

  // ---------------------------------------------------------------- preview

  datatype Went = More | Full | Failing

  class Writer {
    var out: Text

    constructor ()
      ensures out == []
    {
      out := [];
    }

    ghost predicate Wrote(w: Written, went: Went)
      reads this
    {
      match w
      case Threw => went == Failing
      case Wrote(o, more) => out == o && went == if more then More else Full
    }

    method Add(text: Text) returns (went: Went)
      modifies this
      ensures out == old(out) + text && went == if |out| < PREVIEW_LENGTH then More else Full
    {
      out := out + text;
      went := if |out| < PREVIEW_LENGTH then More else Full;
    }

    method Write(h: Heap, item: Value) returns (went: Went)
      requires Closed(h) && Has(h, item)
      modifies this
      ensures Wrote(Previewing.Write(h, item, old(out)), went)
      decreases Left(out), 0, 0
    {
      if |out| >= PREVIEW_LENGTH {
        return Full;
      }
      match item {
        case Plain(Str(text)) => went := Add(Quoted(Head(text, PREVIEW_LENGTH - |out|)));
        case Plain(BigInt(_)) => went := Failing;
        case Plain(x) => went := Add(ScalarPrint(x));
        case Arr(r) =>
          out := out + [0x5B];
          went := WriteItems(h, h.arrays[r]);
          if went == More {
            went := Add([0x5D]);
          }
        case Obj(r) =>
          out := out + [0x7B];
          went := WriteFields(h, h.keys[r], h.fields[r]);
          if went == More {
            went := Add([0x7D]);
          }
      }
    }

    method WriteItems(h: Heap, items: seq<Value>) returns (went: Went)
      requires Closed(h) && HasAll(h, items)
      modifies this
      ensures Wrote(Previewing.WriteItems(h, items, true, old(out)), went)
      decreases Left(out), 1, |items|
    {
      var i := 0;
      while i < |items|
        invariant i <= |items| && old(out) <= out
        invariant Previewing.WriteItems(h, items, true, old(out)) == Previewing.WriteItems(h, items[i..], i == 0, out)
      {
        assert items[i..][0] == items[i] && items[i..][1..] == items[i + 1..];
        ghost var was := out;
        if i > 0 {
          out := out + COMMA;
        }
        assert out == was + Before(i == 0);
        went := Write(h, items[i]);
        if went != More {
          return;
        }
        i := i + 1;
      }
      went := More;
    }

    method WriteFields(h: Heap, keys: seq<Text>, values: seq<Value>) returns (went: Went)
      requires Closed(h) && HasAll(h, values) && |keys| == |values|
      modifies this
      ensures Wrote(Previewing.WriteFields(h, keys, values, true, old(out)), went)
      decreases Left(out), 1, |values|
    {
      var first, i := true, 0;
      while i < |keys|
        invariant i <= |keys| && old(out) <= out
        invariant Previewing.WriteFields(h, keys, values, true, old(out))
                  == Previewing.WriteFields(h, keys[i..], values[i..], first, out)
      {
        assert values[i..][0] == values[i] && values[i..][1..] == values[i + 1..];
        assert keys[i..][0] == keys[i] && keys[i..][1..] == keys[i + 1..];
        out := out + Before(first) + Named(keys[i]);
        first := false;
        went := Write(h, values[i]);
        if went != More {
          return;
        }
        i := i + 1;
      }
      went := More;
    }
  }

  method MakePreview(h: Heap, value: Value) returns (preview: Preview)
    requires Closed(h) && Has(h, value)
    ensures preview == PreviewOf(h, value)
  {
    var writer := new Writer();
    var went := writer.Write(h, value);
    match went {
      case Failing => preview := Failed;
      case More => preview := Shown(writer.out);
      case Full => preview := Shown(Head(writer.out, PREVIEW_LENGTH) + [ELLIPSIS]);
    }
  }

  // ---------------------------------------------------------------- the value, or its description

  // What a value weighs by itself: a text's quotes are not counted, and what is not data weighs nothing.
  ghost function Weight(t: Tree): nat {
    match t
    case Leaf(Str(text)) => Bytes(text)
    case Leaf(Binary(n)) => n
    case Leaf(_) => 0
    case _ => Size(t)
  }

  lemma WeightOf(h: Heap, value: Value)
    ensures forall t :: Says(h, value, t) ==> Weight(t) == if value.Plain? then Weight(Leaf(value.scalar)) else Size(t)
  {
  }

  // The print of a value up to its first bigint, as deep as is shown.
  ghost function Beginning(h: Heap, value: Value): Printed
    requires Closed(h) && Has(h, value)
  {
    Upto(Unfolded(h, value, PREVIEW_LENGTH))
  }

  // A list or an object with a bigint among what is shown of it.
  ghost predicate ThrowsAt(h: Heap, value: Value)
    requires Closed(h) && Has(h, value)
  {
    !value.Plain? && HasBigInt(Unfolded(h, value, PREVIEW_LENGTH)) && |Beginning(h, value).text| < PREVIEW_LENGTH
  }

  method ReportedValue(h: Heap, value: Value, limit: nat) returns (r: Reported)
    requires Closed(h) && Has(h, value)
    ensures r.Carried? <==> exists t :: Says(h, value, t) && Weight(t) <= limit
    ensures forall t :: Says(h, value, t) && r.TooLarge? ==> limit < r.bytes <= Weight(t) && (r.exact ==> r.bytes == Weight(t))
    ensures forall t :: Says(h, value, t) && r.TooLargeBinary? ==> limit < r.bytes == Weight(t)
    ensures r.TooLarge? ==>
              match value
              case Plain(x) => x.Str? && r.kind == OfText && r.preview == Shown(Head(x.text, PREVIEW_LENGTH)) && (r.exact <==> |x.text| <= limit)
              case _ => r.kind == OfJson && !r.exact && Previews(r.preview, Beginning(h, value)) && r.preview.Shown?
    ensures r.TooLargeBinary? ==> value.Plain? && value.scalar.Binary?
    ensures r.Thrown? <==> (forall t :: Says(h, value, t) ==> Weight(t) > limit) && ThrowsAt(h, value)
  {
    assert value.Plain? ==> Says(h, value, Leaf(value.scalar));
    WeightOf(h, value);
    match value {
      case Plain(Str(text)) =>
        var bytes := BytesUpTo(text, limit);
        r := if bytes > limit then TooLarge(OfText, bytes, |text| <= limit, Shown(Head(text, PREVIEW_LENGTH))) else Carried;
      case Plain(Binary(n)) =>
        r := if n > limit then TooLargeBinary(n) else Carried;
      case Plain(_) =>
        assert Weight(Leaf(value.scalar)) == 0;
        r := Carried;
      case _ =>
        var bytes := SizeUpTo(h, value, limit);
        assert bytes <= limit ==> exists t :: Says(h, value, t) && Weight(t) <= limit by {
          if bytes <= limit {
            var t :| Says(h, value, t) && Size(t) <= limit;
            assert Weight(t) == Size(t);
          }
        }
        if bytes > limit {
          ShowsTheBeginning(h, value, PREVIEW_LENGTH);
          FailsExactly(h, value, PREVIEW_LENGTH);
          var preview := MakePreview(h, value);
          r := if preview.Failed? then Thrown else TooLarge(OfJson, bytes, false, preview);
        } else {
          r := Carried;
        }
    }
  }

  // A list of a bigint and a long text is past the limit, and is neither carried nor described.
  method NeitherCarriedNorDescribed(h: Heap, r: Ref, digits: Digits, text: Text, limit: nat) returns (reported: Reported)
    requires Closed(h) && r in h.arrays && h.arrays[r] == [Plain(BigInt(digits)), Plain(Str(text))] && |text| > limit
    ensures reported == Thrown
  {
    BigIntFails(h, r, digits, text, limit);
    WithinBudget(h, Arr(r), limit);
    FailsExactly(h, Arr(r), PREVIEW_LENGTH);
    reported := ReportedValue(h, Arr(r), limit);
  }
}

/** The validity checks on one item's metadata dict (`Metadata` in
    util/metadata.py; `MetadataUtil` in util/library.py is the same code).
    A field is valid when its key is present and its value has the expected
    JSON type: a string for the caption, a list for the labels and the text. */
module Metadata {
  import opened Json

  /** One item's metadata: a decoded JSON object. */
  type ItemMetadata = map<string, Value>

  const CaptionKey: string := "caption"
  const LabelsKey: string := "labels"
  const TextKey: string := "text"

  predicate HasValidCaption(m: ItemMetadata) {
    CaptionKey in m && m[CaptionKey].JStr?
  }

  predicate HasValidLabels(m: ItemMetadata) {
    LabelsKey in m && m[LabelsKey].JList?
  }

  predicate HasValidText(m: ItemMetadata) {
    TextKey in m && m[TextKey].JList?
  }

  /** The three fields are all valid: such an item needs no fixing. */
  predicate IsComplete(m: ItemMetadata) {
    HasValidCaption(m) && HasValidLabels(m) && HasValidText(m)
  }

  /** An empty metadata dict has no valid field. */
  lemma EmptyIsInvalid()
    ensures !HasValidCaption(map[]) && !HasValidLabels(map[]) && !HasValidText(map[])
  {
  }

  /** A present key whose value has the wrong type is invalid: a caption must
      be a string and labels and text must be lists. */
  lemma WrongTypeIsInvalid(m: ItemMetadata, v: Value)
    ensures !v.JStr? ==> !HasValidCaption(m[CaptionKey := v])
    ensures !v.JList? ==> !HasValidLabels(m[LabelsKey := v]) && !HasValidText(m[TextKey := v])
  {
  }

  /** Each check reads only its own key: writing or removing any other key
      leaves its answer unchanged. */
  lemma ChecksAreLocal(m: ItemMetadata, k: string, v: Value)
    ensures k != CaptionKey ==> HasValidCaption(m[k := v]) == HasValidCaption(m) == HasValidCaption(m - {k})
    ensures k != LabelsKey ==> HasValidLabels(m[k := v]) == HasValidLabels(m) == HasValidLabels(m - {k})
    ensures k != TextKey ==> HasValidText(m[k := v]) == HasValidText(m) == HasValidText(m - {k})
  {
  }
}

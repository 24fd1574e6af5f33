/** `defaultDataForType`: the payload a new node of each type starts with. */
module Defaults {
  import opened Values
  import opened StudioGraph

  predicate IsKnownType(kind: string)
  {
    kind == TextPrompt || kind == ImageUpload || kind == ImageGen || kind == VideoGen
  }

  /** The fields each payload interface declares (`TextPromptData`,
      `ImageUploadData`, `ImageGenData`, `VideoGenData`). */
  function DeclaredFields(kind: string): set<string>
    requires IsKnownType(kind)
  {
    if kind == TextPrompt then {"label", "prompt", "style"}
    else if kind == ImageUpload then {"label", "imageUrl", "fileName"}
    else if kind == ImageGen then
      {"label", "model", "aspectRatio", "numOutputs", "guidanceScale", "outputImages", "isRunning", "error"}
    else {"label", "model", "duration", "outputUrl", "isRunning", "progress", "error"}
  }

  /** The default payload of a node type. Every default is labelled; a known
      type gets exactly its declared fields (the video default adds an
      `aspectRatio` its interface does not declare); an unknown type gets
      only a label naming the type. Nothing is running and no error is set. */
  function DefaultData(kind: string): (d: Payload)
    ensures "label" in d && d["label"].VStr?
    ensures IsKnownType(kind) && kind != VideoGen ==> d.Keys == DeclaredFields(kind)
    ensures kind == VideoGen ==> d.Keys == DeclaredFields(kind) + {"aspectRatio"}
    ensures !IsKnownType(kind) ==> d == map["label" := VStr(kind)]
    ensures "isRunning" in d ==> d["isRunning"] == VBool(false)
    ensures "error" in d ==> d["error"] == VNull
  {
    if kind == TextPrompt then
      map["label" := VStr("Text Prompt"), "prompt" := VStr(""), "style" := VStr("photorealistic")]
    else if kind == ImageUpload then
      map["label" := VStr("Image Upload"), "imageUrl" := VNull, "fileName" := VNull]
    else if kind == ImageGen then
      map[
        "label" := VStr("Image Generation"),
        "model" := VStr("local-sd15"),
        "aspectRatio" := VStr("1:1"),
        "numOutputs" := VNum(1.0),
        "guidanceScale" := VNum(7.5),
        "outputImages" := VStrList([]),
        "isRunning" := VBool(false),
        "error" := VNull]
    else if kind == VideoGen then
      map[
        "label" := VStr("Video Generation"),
        "model" := VStr("local-animatediff"),
        "duration" := VNum(2.0),
        "aspectRatio" := VStr("16:9"),
        "outputUrl" := VNull,
        "isRunning" := VBool(false),
        "progress" := VNum(0.0),
        "error" := VNull]
    else
      map["label" := VStr(kind)]
  }
}

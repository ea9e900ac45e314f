/** `handleFileChange` of `frontend/components/ModelUploader.tsx`: classify
    the chosen file by its extension and hand an object URL and the model
    type to `onModelLoad`, or alert and stop. */
module ModelUploader {
  import opened Wrappers
  import opened Strings
  import ModelViewer

  /** `file.name.split('.').pop()?.toLowerCase()`: `split` always yields at
      least one piece, so the optional chain never short-circuits. */
  function Extension(name: string): (e: string)
    ensures |e| <= |name|
    ensures forall i :: 0 <= i < |e| ==> !('A' <= e[i] <= 'Z')
  {
    ToLower(AfterLast(name, '.'))
  }

  /** The extension is the lower-cased text after the last `.`, or the whole
      lower-cased name when there is no `.`; it never contains a `.`. */
  lemma ExtensionSpec(name: string)
    ensures '.' !in Extension(name)
    ensures '.' !in name ==> Extension(name) == ToLower(name)
    ensures '.' in name ==>
      exists stem :: name == stem + "." + AfterLast(name, '.') && Extension(name) == ToLower(AfterLast(name, '.'))
  {
    var tail := AfterLast(name, '.');
    assert forall i :: 0 <= i < |tail| ==> ToLower(tail)[i] == ToLowerChar(tail[i]) && tail[i] != '.';
    if '.' in name {
      var stem := name[..|name| - |tail| - 1];
      assert name == stem + "." + tail;
    }
  }

  const AlertText := "Please upload a GLB, GLTF, or FBX file"

  function Classify(ext: string): (t: Option<ModelViewer.ModelType>)
    ensures t == Some(ModelViewer.Gltf) <==> ext == "gltf" || ext == "glb"
    ensures t == Some(ModelViewer.Fbx) <==> ext == "fbx"
    ensures t == None <==> ext != "gltf" && ext != "glb" && ext != "fbx"
  {
    if ext == "gltf" || ext == "glb" then Some(ModelViewer.Gltf)
    else if ext == "fbx" then Some(ModelViewer.Fbx)
    else None
  }

  /** What a change event does: nothing without a file, an alert for an
      unknown extension, or one `onModelLoad(url, type)` call. */
  datatype Outcome = NoFile | Alert(message: string) | ModelLoad(url: string, modelType: ModelViewer.ModelType)

  /** `objectUrl` is what `URL.createObjectURL(file)` returns. */
  function HandleFileChange(fileName: Option<string>, objectUrl: string): (o: Outcome)
    ensures fileName.None? ==> o == NoFile
    ensures fileName.Some? ==> match Classify(Extension(fileName.value))
      case None => o == Alert(AlertText)
      case Some(t) => o == ModelLoad(objectUrl, t)
  {
    if fileName.None? then NoFile
    else match Classify(Extension(fileName.value))
      case None => Alert(AlertText)
      case Some(t) => ModelLoad(objectUrl, t)
  }

  /** Upper-case extensions are accepted: the classification of `stem.EXT`
      is that of the lower-cased `EXT`, whatever the stem. */
  lemma CaseInsensitive(stem: string, ext: string)
    requires '.' !in ext
    ensures Extension(stem + "." + ext) == ToLower(ext)
  {
    AfterLastOfSuffix(stem, ext);
  }

  lemma AfterLastOfSuffix(stem: string, ext: string)
    requires '.' !in ext
    ensures AfterLast(stem + "." + ext, '.') == ext
  {
    var s := stem + "." + ext;
    var r := AfterLast(s, '.');
    assert s[|s| - |ext| - 1] == '.';
    assert forall i :: 0 <= i < |ext| ==> s[|stem| + 1 + i] == ext[i];
    assert |r| == |ext|;
    assert r == s[|s| - |ext|..] == ext;
  }

  /** Sample names: `room.GLB` loads as GLTF, `chair.fbx` as FBX, and a
      `.obj` is refused. */
  lemma UpperCaseGlb(url: string)
    ensures HandleFileChange(Some("room.GLB"), url) == ModelLoad(url, ModelViewer.Gltf)
  {
    CaseInsensitive("room", "GLB");
    assert "room" + "." + "GLB" == "room.GLB";
    assert ToLower("GLB") == "glb";
  }

  lemma PlainFbx(url: string)
    ensures HandleFileChange(Some("chair.fbx"), url) == ModelLoad(url, ModelViewer.Fbx)
  {
    CaseInsensitive("chair", "fbx");
    assert "chair" + "." + "fbx" == "chair.fbx";
    assert ToLower("fbx") == "fbx";
  }

  lemma ObjRefused(url: string)
    ensures HandleFileChange(Some("desk.obj"), url) == Alert(AlertText)
  {
    CaseInsensitive("desk", "obj");
    assert "desk" + "." + "obj" == "desk.obj";
    assert ToLower("obj") == "obj";
  }
}

/** The API base URL and the endpoint builders of `frontend/utils/config.ts`.
    The environment variable `NEXT_PUBLIC_API_URL` is an input. */
module Config {
  import opened Wrappers
  import opened Strings

  const DefaultApiUrl: string := "http://localhost:8000"
  const AnalyzePath: string := "/analyze/"
  const TtsPath: string := "/tts/generate"
  const ModelStatusPath: string := "/models/status/"
  const ModelDownloadPath: string := "/models/"

  /** `process.env.NEXT_PUBLIC_API_URL || 'http://localhost:8000'`: an unset or
      empty variable falls back to the local server. */
  function ApiUrl(env: Option<string>): (base: string)
    ensures base != ""
    ensures env.Some? && env.value != "" ==> base == env.value
    ensures env.None? || env.value == "" ==> base == DefaultApiUrl
  {
    if env.Some? && env.value != "" then env.value else DefaultApiUrl
  }

  /** Each builder is the base followed by its fixed path (and, for the
      model endpoints, the id or file name), with nothing in between. */
  function Analyze(base: string): (url: string)
    ensures |url| == |base| + |AnalyzePath|
    ensures url[..|base|] == base && url[|base|..] == AnalyzePath
  {
    base + AnalyzePath
  }

  function TtsGenerate(base: string): (url: string)
    ensures |url| == |base| + |TtsPath|
    ensures url[..|base|] == base && url[|base|..] == TtsPath
  {
    base + TtsPath
  }

  function ModelStatus(base: string, modelId: string): (url: string)
    ensures |url| == |base| + |ModelStatusPath| + |modelId|
    ensures url[..|base|] == base
    ensures url[|base|..|base| + |ModelStatusPath|] == ModelStatusPath
    ensures url[|base| + |ModelStatusPath|..] == modelId
  {
    base + ModelStatusPath + modelId
  }

  function ModelDownload(base: string, filename: string): (url: string)
    ensures |url| == |base| + |ModelDownloadPath| + |filename|
    ensures url[..|base|] == base
    ensures url[|base|..|base| + |ModelDownloadPath|] == ModelDownloadPath
    ensures url[|base| + |ModelDownloadPath|..] == filename
  {
    base + ModelDownloadPath + filename
  }

  /** The inverse of `ModelStatus`: strips the fixed prefix. */
  function ParseModelStatus(base: string, url: string): (id: Option<string>)
    ensures id.Some? ==> StartsWith(url, base + ModelStatusPath)
  {
    var prefix := base + ModelStatusPath;
    if StartsWith(url, prefix) then Some(url[|prefix|..]) else None
  }

  /** The id is recovered from a status URL by removing the prefix. */
  lemma ModelStatusRoundTrip(base: string, modelId: string)
    ensures ParseModelStatus(base, ModelStatus(base, modelId)) == Some(modelId)
  {
    var url := ModelStatus(base, modelId);
    var prefix := base + ModelStatusPath;
    assert url == prefix + modelId;
    assert url[..|prefix|] == prefix;
    assert url[|prefix|..] == modelId;
  }

  /** ... and every URL the parser accepts is the status URL of what it returns. */
  lemma ParseModelStatusSound(base: string, url: string)
    requires ParseModelStatus(base, url).Some?
    ensures ModelStatus(base, ParseModelStatus(base, url).value) == url
  {
    var prefix := base + ModelStatusPath;
    assert url == url[..|prefix|] + url[|prefix|..];
  }

  /** So `ModelStatus` is injective in the id. */
  lemma ModelStatusInjective(base: string, a: string, b: string)
    requires ModelStatus(base, a) == ModelStatus(base, b)
    ensures a == b
  {
    ModelStatusRoundTrip(base, a);
    ModelStatusRoundTrip(base, b);
  }

  /** Every endpoint begins with the same base string. */
  lemma EndpointsShareBase(base: string, modelId: string, filename: string)
    ensures StartsWith(Analyze(base), base)
    ensures StartsWith(TtsGenerate(base), base)
    ensures StartsWith(ModelStatus(base, modelId), base)
    ensures StartsWith(ModelDownload(base, filename), base)
  {
    assert Analyze(base)[..|base|] == base;
    assert TtsGenerate(base)[..|base|] == base;
    assert ModelStatus(base, modelId)[..|base|] == base;
    assert ModelDownload(base, filename)[..|base|] == base;
  }
}

/**
 * What the provisioning steps hand to the fwi-serial transport utility: the
 * image asset chosen for the selected picture and the argument vector of each
 * of the five invocations.
 */
module Transport {
  import opened Wrappers
  import opened Artifacts

  /** The transport utility, found on the executable search path. */
  const Program := "fwi-serial"

  /** The pictures a user can select; OtherPicture is any other image handle. */
  datatype Picture = DefconLogo | Doge | Puppy | PipBoy | Vegas | OtherPicture

  const PlaceholderAsset := "assets/badge_placeholder.fwi"
  /** Where the selected image goes on the device. */
  const RemoteImage := "/images/build_a_badge.fwi"
  const WasmFile := "build_a_badge.wasm"
  /** The device index argument of the uploads that carry one. */
  const DeviceIndex := "1"

  /** The local asset uploaded for the selected picture: a `.fwi` file in the assets directory. */
  function ImageAsset(selection: Option<Picture>): (asset: string)
    ensures |asset| > 11 && asset[..7] == "assets/" && asset[|asset| - 4..] == ".fwi"
  {
    match selection
    case Some(DefconLogo) => "assets/defcon_logo.fwi"
    case Some(Doge) => "assets/doge.fwi"
    case Some(Puppy) => "assets/puppy.fwi"
    case Some(PipBoy) => "assets/pip_boy.fwi"
    case Some(Vegas) => "assets/vegas.fwi"
    case Some(OtherPicture) => PlaceholderAsset
    case None => PlaceholderAsset
  }

  /** No selection and any unknown image, and only those, get the placeholder asset. */
  lemma PlaceholderOnlyByDefault(selection: Option<Picture>)
    ensures ImageAsset(selection) == PlaceholderAsset
            <==> selection == None || selection == Some(OtherPicture)
  {
    match selection
    case None =>
    case Some(p) =>
      match p
      case DefconLogo => assert ImageAsset(selection)[7] != PlaceholderAsset[7];
      case Doge => assert |ImageAsset(selection)| != |PlaceholderAsset|;
      case Puppy => assert |ImageAsset(selection)| != |PlaceholderAsset|;
      case PipBoy => assert |ImageAsset(selection)| != |PlaceholderAsset|;
      case Vegas => assert |ImageAsset(selection)| != |PlaceholderAsset|;
      case OtherPicture =>
  }

  /** Two known pictures share an asset only when they are the same picture. */
  lemma KnownAssetsDistinct(p: Picture, q: Picture)
    requires p != OtherPicture && q != OtherPicture
    ensures ImageAsset(Some(p)) == ImageAsset(Some(q)) ==> p == q
  {
    var a, b := ImageAsset(Some(p)), ImageAsset(Some(q));
    if a == b {
      PlaceholderOnlyByDefault(Some(p));
      assert |a| == |b| && a[7] == b[7] && a[8] == b[8];
    }
  }

  /** The upload form of the utility: local file, remote name, optional device index. */
  function UploadArgs(local: string, remote: string, deviceIndex: Option<string>): seq<string>
  {
    ["-s", local, "-fn", remote] + (if deviceIndex.Some? then ["-mi", deviceIndex.value] else [])
  }

  function ConfigUploadArgs(): seq<string>
  {
    ["-s", "build_a_badge.txt", "-fn", "/build_a_badge.txt", "-mi", "1"]
  }

  function ImageUploadArgs(selection: Option<Picture>): seq<string>
  {
    ["-s", ImageAsset(selection), "-fn", "/images/build_a_badge.fwi"]
  }

  /** The application bundle upload names only the local file. */
  function WasmUploadArgs(): seq<string>
  {
    ["-s", "build_a_badge.wasm"]
  }

  function SettingsUploadArgs(): seq<string>
  {
    ["-s", "settings.txt", "-fn", "/settings.txt", "-mi", "1"]
  }

  function WasmRunArgs(): seq<string>
  {
    ["-w", "build_a_badge.wasm"]
  }

  /**
   * The configuration and settings uploads send the files the run wrote to the
   * device root under the same name, with device index 1; the image upload
   * sends the selected asset to the fixed image path without an index; the
   * bundle is uploaded and then run under the same local name.
   */
  lemma ArgumentVectors(selection: Option<Picture>)
    ensures ConfigUploadArgs() == UploadArgs(ConfigFile, "/" + ConfigFile, Some(DeviceIndex))
    ensures SettingsUploadArgs() == UploadArgs(SettingsFile, "/" + SettingsFile, Some(DeviceIndex))
    ensures ImageUploadArgs(selection) == UploadArgs(ImageAsset(selection), RemoteImage, None)
    ensures WasmUploadArgs()[1] == WasmRunArgs()[1] == WasmFile
  {
    assert "/" + ConfigFile == "/build_a_badge.txt";
    assert "/" + SettingsFile == "/settings.txt";
  }
}

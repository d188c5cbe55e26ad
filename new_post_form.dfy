/** The publish form of the feed app (`NewPostView`): it reads a geotag out of
    the picked photo's metadata, checks the form fields in a fixed order,
    resolves the post's location and hands the upload to `PostManager`. */
module NewPostForm {
  import opened Wrappers
  import opened Geo
  import opened Backend
  import PostManager

  /** A value of an image's property dictionary, as `CGImageSourceCopyPropertiesAtIndex`
      returns it, already parsed. */
  datatype Meta =
    | MetaString(s: string)
    | MetaNumber(n: Double)
    | MetaDictionary(entries: map<string, Meta>)
    | MetaOther

  type Properties = map<string, Meta>

  /** The hemisphere sign rule: the value as given when the reference is the
      positive one, its negation for any other reference. */
  function SignedByRef(value: Double, ref: string, positiveRef: string): Double {
    if ref == positiveRef then value else value.Negated()
  }

  /** All four GPS tags are present with the expected types. */
  predicate HasGpsTags(gps: Properties) {
    && "LatitudeRef" in gps && gps["LatitudeRef"].MetaString?
    && "Latitude" in gps && gps["Latitude"].MetaNumber?
    && "LongitudeRef" in gps && gps["LongitudeRef"].MetaString?
    && "Longitude" in gps && gps["Longitude"].MetaNumber?
  }

  /** The `{GPS}` dictionary of a photo's properties holds all four tags with
      the expected types, whatever else the properties carry. */
  predicate HasGeotag(props: Properties) {
    "{GPS}" in props && props["{GPS}"].MetaDictionary? && HasGpsTags(props["{GPS}"].entries)
  }

  /** The coordinate the `{GPS}` dictionary of the image's properties encodes;
      none when the properties could not be read (no JPEG data, no image
      source), when there is no `{GPS}` dictionary, or when a tag is missing. */
  function GeotagOf(properties: Option<Properties>): Option<Coordinate> {
    match properties
    case None => None
    case Some(props) =>
      if HasGeotag(props) then
        var gps := props["{GPS}"].entries;
        Some(Coordinate(SignedByRef(gps["Latitude"].n, gps["LatitudeRef"].s, "N"),
                        SignedByRef(gps["Longitude"].n, gps["LongitudeRef"].s, "E")))
      else
        None
  }

  /** Any photo whose `{GPS}` dictionary holds the four tags gets a geotag: the
      latitude is the raw value under "N" and its negation under any other
      reference, the longitude likewise under "E". Other properties and other
      GPS tags make no difference. */
  lemma GeotagSignRule(props: Properties)
    requires HasGeotag(props)
    ensures var gps := props["{GPS}"].entries;
            var g := GeotagOf(Some(props));
            && g.Some?
            && g.value.latitude
               == (if gps["LatitudeRef"].s == "N" then gps["Latitude"].n else gps["Latitude"].n.Negated())
            && g.value.longitude
               == (if gps["LongitudeRef"].s == "E" then gps["Longitude"].n else gps["Longitude"].n.Negated())
  {
  }

  /** A reference other than exactly "N" or "E" ("S", "W", lower-case, empty)
      always flips the sign of a finite value. */
  lemma OnlyNorthAndEastArePositive(props: Properties)
    requires HasGeotag(props)
    requires var gps := props["{GPS}"].entries;
             && gps["LatitudeRef"].s != "N" && gps["Latitude"].n.Finite?
             && gps["LongitudeRef"].s != "E" && gps["Longitude"].n.Finite?
    ensures var gps := props["{GPS}"].entries;
            GeotagOf(Some(props))
            == Some(Coordinate(Finite(-gps["Latitude"].n.value), Finite(-gps["Longitude"].n.value)))
  {
  }

  /** The properties of a photo tagged 25.5 N, 80.2 W, with an altitude tag and
      a pixel width beside the four tags the code reads. */
  function TaggedPhotoProperties(): Properties {
    map[
      "PixelWidth" := MetaNumber(Finite(4032.0)),
      "{Exif}" := MetaDictionary(map["ExposureTime" := MetaNumber(Finite(0.008))]),
      "{GPS}" := MetaDictionary(map[
        "LatitudeRef" := MetaString("N"),
        "Latitude" := MetaNumber(Finite(25.5)),
        "LongitudeRef" := MetaString("W"),
        "Longitude" := MetaNumber(Finite(80.2)),
        "Altitude" := MetaNumber(Finite(3.0))])]
  }

  /** A photo tagged 25.5 N, 80.2 W is placed at (25.5, -80.2). */
  lemma WesternHemisphereExample()
    ensures GeotagOf(Some(TaggedPhotoProperties())) == Some(Coordinate(Finite(25.5), Finite(-80.2)))
  {
  }

  /** There is no geotag exactly when the properties could not be read, have
      no `{GPS}` entry, have one that is not a dictionary, or lack one of the
      four tags or hold it with another type. */
  lemma MissingTagMeansNoGeotag(properties: Option<Properties>)
    ensures GeotagOf(properties).None? <==> properties.None? || !HasGeotag(properties.value)
  {
  }

  /** A latitude stored as text, as some editors write it, gives no geotag. */
  lemma TextLatitudeMeansNoGeotag(props: Properties, text: string)
    requires "{GPS}" in props && props["{GPS}"].MetaDictionary?
    ensures var gps := props["{GPS}"].entries["Latitude" := MetaString(text)];
            GeotagOf(Some(props["{GPS}" := MetaDictionary(gps)])) == None
  {
  }

  const SelectImage := "Please select an image"
  const EnterUsername := "Please enter a username"
  const EnterFishType := "Please enter a fish type"
  const EnterLocationName := "Please enter a location name"
  const NoLocation := "Unable to get location"

  /** The guard chain of `uploadPost`: the photo and the coordinate to publish,
      or the alert of the first check that fails. The coordinate is the
      photo's geotag, else the device's location. */
  function CheckForm(image: Option<Image>, username: string, fishType: string, locationName: string,
                     imageLocation: Option<Coordinate>, deviceLocation: Option<Coordinate>): Result<(Image, Coordinate), string>
  {
    if image.None? then Err(SelectImage)
    else if username == "" then Err(EnterUsername)
    else if fishType == "" then Err(EnterFishType)
    else if locationName == "" then Err(EnterLocationName)
    else match imageLocation.Or(deviceLocation)
      case None => Err(NoLocation)
      case Some(location) => Ok((image.value, location))
  }

  /** Each alert is raised exactly when its check is the first to fail, in
      the order image, username, fish type, location name, location. */
  lemma CheckFormReportsFirstFailure(image: Option<Image>, username: string, fishType: string, locationName: string,
                                     imageLocation: Option<Coordinate>, deviceLocation: Option<Coordinate>)
    ensures var r := CheckForm(image, username, fishType, locationName, imageLocation, deviceLocation);
            && (r == Err(SelectImage) <==> image.None?)
            && (r == Err(EnterUsername) <==> image.Some? && username == "")
            && (r == Err(EnterFishType) <==> image.Some? && username != "" && fishType == "")
            && (r == Err(EnterLocationName) <==> image.Some? && username != "" && fishType != "" && locationName == "")
            && (r == Err(NoLocation) <==> image.Some? && username != "" && fishType != "" && locationName != ""
                                          && imageLocation.None? && deviceLocation.None?)
  {
  }

  /** The form passes exactly when every field is filled in and some location
      is known; the location used is the geotag when there is one. */
  lemma CheckFormAccepts(image: Option<Image>, username: string, fishType: string, locationName: string,
                         imageLocation: Option<Coordinate>, deviceLocation: Option<Coordinate>)
    ensures var r := CheckForm(image, username, fishType, locationName, imageLocation, deviceLocation);
            && (r.Ok? <==> image.Some? && username != "" && fishType != "" && locationName != ""
                           && (imageLocation.Some? || deviceLocation.Some?))
            && (r.Ok? ==> r.value.0 == image.value
                          && r.value.1 == (if imageLocation.Some? then imageLocation.value else deviceLocation.value))
  {
  }

  /** The store calls and outcome of `PostManager.uploadPost` for this form. */
  function UploadRun(location: Coordinate, description: string, locationName: string, fishType: string,
                     username: string, resp: Responses): Run
  {
    PublishRun(resp.jpeg, PostManager.PrepareImageFailed, PostManager.UploadPath(resp.blobName), resp.put, resp.url, resp.write,
               url => PostManager.UploadDocument(url, description, location, locationName, fishType, username, resp.now))
  }

  class NewPostView {
    const postManager: PostManager.PostManager
    var selectedImage: Option<Image>
    var imageLocation: Option<Coordinate>
    var description: string
    var locationName: string
    var fishType: string
    var username: string
    var isLoading: bool
    var showAlert: bool
    var alertMessage: string
    /** Whether `dismiss()` has been called. */
    var dismissed: bool

    constructor (postManager: PostManager.PostManager)
      ensures this.postManager == postManager
      ensures selectedImage == None && imageLocation == None
      ensures description == "" && locationName == "" && fishType == "" && username == ""
      ensures !isLoading && !showAlert && alertMessage == "" && !dismissed
    {
      this.postManager := postManager;
      selectedImage := None;
      imageLocation := None;
      description, locationName, fishType, username := "", "", "", "";
      isLoading, showAlert, alertMessage, dismissed := false, false, "", false;
    }

    /** `extractLocationFromImage`: the geotag replaces `imageLocation` only
        when all four tags are there; otherwise the previous value stays (also
        when it came from an earlier photo). */
    method ExtractLocationFromImage(properties: Option<Properties>)
      modifies this`imageLocation
      ensures imageLocation == (if GeotagOf(properties).Some? then GeotagOf(properties) else old(imageLocation))
    {
      match GeotagOf(properties) {
        case Some(location) =>
          imageLocation := Some(location);
        case None =>
      }
    }

    /** The photo picker's change handler: a photo that loads becomes the
        selected image and its geotag is extracted; a failed load changes
        nothing. */
    method PhotoLoaded(image: Option<Image>, properties: Option<Properties>)
      modifies this`selectedImage, this`imageLocation
      ensures selectedImage == (if image.Some? then image else old(selectedImage))
      ensures imageLocation == (if image.Some? && GeotagOf(properties).Some? then GeotagOf(properties) else old(imageLocation))
    {
      if image.Some? {
        selectedImage := image;
        ExtractLocationFromImage(properties);
      }
    }

    /** `uploadPost`: on the first failing check, raise its alert and stop,
        with nothing uploaded and `isLoading` untouched. Otherwise set
        `isLoading`, publish through the post manager, dismiss on success or
        alert with the error's message on failure, and clear `isLoading`. */
    method UploadPost(deviceLocation: Option<Coordinate>, resp: Responses) returns (calls: seq<StoreCall>)
      modifies this, postManager
      ensures var check := CheckForm(old(selectedImage), old(username), old(fishType), old(locationName),
                                     old(imageLocation), deviceLocation);
              && (check.Err? ==>
                    && calls == [] && alertMessage == check.error && showAlert
                    && isLoading == old(isLoading) && dismissed == old(dismissed)
                    && postManager.posts == old(postManager.posts)
                    && postManager.isLoading == old(postManager.isLoading)
                    && postManager.error == old(postManager.error))
              && (check.Ok? ==>
                    var run := UploadRun(check.value.1, old(description), old(locationName), old(fishType), old(username), resp);
                    && calls == run.calls && !isLoading
                    && postManager.posts == old(postManager.posts) && !postManager.isLoading
                    && (run.outcome.Pass? ==> dismissed && alertMessage == old(alertMessage) && showAlert == old(showAlert)
                                              && postManager.error == None)
                    && (run.outcome.Fail? ==> dismissed == old(dismissed) && alertMessage == run.outcome.error && showAlert
                                              && postManager.error == Some(run.outcome.error)))
      ensures selectedImage == old(selectedImage) && imageLocation == old(imageLocation)
      ensures description == old(description) && locationName == old(locationName)
      ensures fishType == old(fishType) && username == old(username)
    {
      calls := [];
      if selectedImage.None? {
        alertMessage, showAlert := SelectImage, true;
        return;
      }
      if username == "" {
        alertMessage, showAlert := EnterUsername, true;
        return;
      }
      if fishType == "" {
        alertMessage, showAlert := EnterFishType, true;
        return;
      }
      if locationName == "" {
        alertMessage, showAlert := EnterLocationName, true;
        return;
      }
      var resolved := imageLocation.Or(deviceLocation);
      if resolved.None? {
        alertMessage, showAlert := NoLocation, true;
        return;
      }
      var image, location := selectedImage.value, resolved.value;
      isLoading := true;
      var outcome;
      calls, outcome := postManager.UploadPost(image, description, location, locationName, fishType, username, resp);
      match outcome {
        case Pass =>
          dismissed := true;
        case Fail(message) =>
          alertMessage := message;
          showAlert := true;
      }
      isLoading := false;
    }
  }
}

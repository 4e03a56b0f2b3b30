/**
 * Validation of an interpreted instruction list before anything runs: each
 * instruction checks itself against, and records its needs in, one shared
 * validator environment; then every distinct Docker image the environment
 * requires is fetched once, and the failures are gathered.
 */
module Validator {
  import opened Wrappers

  /**
   * What validation needs to know about an instruction: its rendering, the
   * images it requires, and whether its own check fails.
   */
  datatype Instruction = Instruction(text: string, requiredImages: seq<string>, validationError: Option<string>)

  /** A failed image fetch, reported for its image. */
  datatype ImagePullError = ImagePullError(image: string, cause: string)

  function PullErrorMessage(e: ImagePullError): string
  {
    "Failed fetching the required image '" + e.image + "': " + e.cause
  }

  datatype ValidationError =
    | InstructionInvalid(instruction: string, cause: string)  // "Error while validating instruction ..."
    | ImagesUnavailable(errors: seq<ImagePullError>)           // "Error while validating final environment of script"

  // ---------------------------------------------------------------------------
  // Specification functions
  // ---------------------------------------------------------------------------

  /** The index of the first instruction whose own check fails, if any. */
  function FirstInvalid(instructions: seq<Instruction>): (r: Option<nat>)
    ensures r.None? <==> forall i :: 0 <= i < |instructions| ==> instructions[i].validationError.None?
    ensures r.Some? ==> r.value < |instructions| && instructions[r.value].validationError.Some? &&
                        forall i :: 0 <= i < r.value ==> instructions[i].validationError.None?
  {
    if |instructions| == 0 then None
    else if instructions[0].validationError.Some? then Some(0)
    else match FirstInvalid(instructions[1..])
      case None => None
      case Some(k) => Some(k + 1)
  }

  /** The images an environment requires after the given instructions recorded theirs. */
  function RequiredImages(instructions: seq<Instruction>): set<string>
  {
    if |instructions| == 0 then {}
    else RequiredImages(instructions[..|instructions| - 1]) + ImageSet(instructions[|instructions| - 1].requiredImages)
  }

  function ImageSet(images: seq<string>): set<string>
  {
    set img | img in images
  }

  /** One error per image whose fetch fails, and none for the others. */
  function PullErrors(images: set<string>, fetch: string -> Option<string>): set<ImagePullError>
  {
    set img | img in images && fetch(img).Some? :: ImagePullError(img, fetch(img).value)
  }

  // ---------------------------------------------------------------------------
  // The environment and the two validators
  // ---------------------------------------------------------------------------

  class ValidatorEnvironment {
    var requiredDockerImages: set<string>

    constructor ()
      ensures requiredDockerImages == {}
    {
      requiredDockerImages := {};
    }

    method AppendRequiredDockerImages(images: seq<string>)
      modifies this
      ensures requiredDockerImages == old(requiredDockerImages) + ImageSet(images)
    {
      requiredDockerImages := requiredDockerImages + ImageSet(images);
    }
  }

  class DockerImagesValidator {
    /** The backend's image fetch: `None` on success, `Some(cause)` on failure. */
    const fetchImage: string -> Option<string>

    constructor (fetchImage: string -> Option<string>)
      ensures this.fetchImage == fetchImage
    {
      this.fetchImage := fetchImage;
    }

    /**
     * Fetches every required image once, in no particular order, and returns
     * nothing when all succeed, or one error per failing image.
     */
    method Validate(environment: ValidatorEnvironment) returns (errors: Option<seq<ImagePullError>>, ghost fetched: seq<string>)
      ensures multiset(fetched) == multiset(environment.requiredDockerImages)
      ensures errors.None? <==> PullErrors(environment.requiredDockerImages, fetchImage) == {}
      ensures errors.Some? ==> multiset(errors.value) == multiset(PullErrors(environment.requiredDockerImages, fetchImage))
    {
      var images := environment.requiredDockerImages;
      var pullErrors: seq<ImagePullError> := [];
      var remaining := images;
      fetched := [];
      while remaining != {}
        invariant remaining <= images
        invariant multiset(fetched) == multiset(images - remaining)
        invariant multiset(pullErrors) == multiset(PullErrors(images - remaining, fetchImage))
        decreases |remaining|
      {
        var image :| image in remaining;
        ghost var done := images - remaining;
        assert images - (remaining - {image}) == done + {image};
        AddFresh(done, image);
        var outcome := fetchImage(image);
        fetched := fetched + [image];
        PullErrorsStep(done, image, fetchImage);
        if outcome.Some? {
          var e := ImagePullError(image, outcome.value);
          AddFresh(PullErrors(done, fetchImage), e);
          pullErrors := pullErrors + [e];
        }
        remaining := remaining - {image};
      }
      assert images - remaining == images;
      if |pullErrors| > 0 {
        errors := Some(pullErrors);
      } else {
        errors := None;
      }
    }
  }

  lemma AddFresh<T>(s: set<T>, x: T)
    requires x !in s
    ensures multiset(s + {x}) == multiset(s) + multiset{x}
  {
  }

  lemma PullErrorsStep(done: set<string>, image: string, fetch: string -> Option<string>)
    requires image !in done
    ensures fetch(image).None? ==> PullErrors(done + {image}, fetch) == PullErrors(done, fetch)
    ensures fetch(image).Some? ==>
      ImagePullError(image, fetch(image).value) !in PullErrors(done, fetch) &&
      PullErrors(done + {image}, fetch) == PullErrors(done, fetch) + {ImagePullError(image, fetch(image).value)}
  {
  }

  class StartosisValidator {
    const dockerImagesValidator: DockerImagesValidator

    constructor (dockerImagesValidator: DockerImagesValidator)
      ensures this.dockerImagesValidator == dockerImagesValidator
    {
      this.dockerImagesValidator := dockerImagesValidator;
    }

    /**
     * Validates the instructions in order against one fresh environment,
     * stopping at the first failure, and only then checks the images the
     * final environment requires. `validated` lists the instructions whose
     * check ran, `fetched` the images fetched.
     */
    method Validate(instructions: seq<Instruction>)
      returns (error: Option<ValidationError>, ghost validated: seq<nat>, ghost fetched: seq<string>)
      // the first failing instruction is reported, and nothing after it is validated or fetched
      ensures FirstInvalid(instructions).Some? ==>
        var k := FirstInvalid(instructions).value;
        error == Some(InstructionInvalid(instructions[k].text, instructions[k].validationError.value))
      ensures FirstInvalid(instructions).Some? ==>
        validated == seq(FirstInvalid(instructions).value + 1, i => i) && fetched == []
      // otherwise every instruction was validated, in order, and the final environment's images checked
      ensures FirstInvalid(instructions).None? ==>
        (error.None? <==> PullErrors(RequiredImages(instructions), dockerImagesValidator.fetchImage) == {}) &&
        (error.Some? ==>
           error.value.ImagesUnavailable? &&
           multiset(error.value.errors) == multiset(PullErrors(RequiredImages(instructions), dockerImagesValidator.fetchImage)))
      ensures FirstInvalid(instructions).None? ==>
        validated == seq(|instructions|, i => i) &&
        multiset(fetched) == multiset(RequiredImages(instructions))
    {
      var environment := new ValidatorEnvironment();
      validated := [];
      fetched := [];
      var i := 0;
      while i < |instructions|
        invariant 0 <= i <= |instructions|
        invariant forall j :: 0 <= j < i ==> instructions[j].validationError.None?
        invariant validated == seq(i, j => j)
        invariant environment.requiredDockerImages == RequiredImages(instructions[..i])
      {
        var instruction := instructions[i];
        validated := validated + [i];
        if instruction.validationError.Some? {
          FirstInvalidAt(instructions, i);
          return Some(InstructionInvalid(instruction.text, instruction.validationError.value)), validated, fetched;
        }
        environment.AppendRequiredDockerImages(instruction.requiredImages);
        assert instructions[..i + 1][..i] == instructions[..i];
        i := i + 1;
      }
      assert instructions[..i] == instructions;
      var imageErrors;
      imageErrors, fetched := dockerImagesValidator.Validate(environment);
      if imageErrors.Some? {
        return Some(ImagesUnavailable(imageErrors.value)), validated, fetched;
      }
      return None, validated, fetched;
    }
  }

  lemma {:induction false} FirstInvalidAt(instructions: seq<Instruction>, k: nat)
    requires k < |instructions| && instructions[k].validationError.Some?
    requires forall j :: 0 <= j < k ==> instructions[j].validationError.None?
    ensures FirstInvalid(instructions) == Some(k)
    decreases k
  {
    if k > 0 {
      FirstInvalidAt(instructions[1..], k - 1);
    }
  }

  // ---------------------------------------------------------------------------
  // Properties of the specification functions
  // ---------------------------------------------------------------------------

  /** The final environment requires exactly the images some instruction names: duplicates collapse. */
  lemma {:induction false} RequiredImagesAreNamed(instructions: seq<Instruction>, image: string)
    ensures image in RequiredImages(instructions) <==>
      exists i :: 0 <= i < |instructions| && image in instructions[i].requiredImages
    decreases |instructions|
  {
    if |instructions| > 0 {
      var init := instructions[..|instructions| - 1];
      RequiredImagesAreNamed(init, image);
      assert forall i :: 0 <= i < |init| ==> init[i] == instructions[i];
    }
  }

  /** The images validator reports nothing exactly when every required image can be fetched. */
  lemma NoErrorsIffAllFetched(images: set<string>, fetch: string -> Option<string>)
    ensures PullErrors(images, fetch) == {} <==> forall img :: img in images ==> fetch(img).None?
  {
    PullErrorsOnePerFailingImage(images, fetch);
    var failing := set img | img in images && fetch(img).Some?;
    if img :| img in images && fetch(img).Some? {
      assert img in failing;
    }
  }

  /** There is one error per failing image: errors are identified by their image. */
  lemma {:induction false} PullErrorsOnePerFailingImage(images: set<string>, fetch: string -> Option<string>)
    ensures |PullErrors(images, fetch)| == |set img | img in images && fetch(img).Some?|
    ensures forall e :: e in PullErrors(images, fetch) <==> e.image in images && fetch(e.image) == Some(e.cause)
    decreases |images|
  {
    if images != {} {
      var img :| img in images;
      PullErrorsOnePerFailingImage(images - {img}, fetch);
      PullErrorsStep(images - {img}, img, fetch);
      assert images - {img} + {img} == images;
      var failing := set i | i in images && fetch(i).Some?;
      var failingRest := set i | i in images - {img} && fetch(i).Some?;
      if fetch(img).Some? {
        assert failing == failingRest + {img};
      } else {
        assert failing == failingRest;
      }
    }
  }
}

/** The fixture data of the encoding endpoint: a gzip member (RFC 1952) that is
    served as an opaque byte string, never decompressed here. */
module GzipFixture {
  import opened Wire

  /** `DifferentEncodingRspHandler.gzipped_body`: the handler's 21 adjacent
      byte literals, one display each, 644 bytes in all. */
  const GzippedBody: seq<byte> :=
    [0x1f, 0x8b, 0x08, 0x00, 0x19, 0x95, 0x4e, 0x58, 0x00, 0x03, 0xd5, 0x53, 0xed, 0x52, 0xda, 0x50, 0x10, 0xfd, 0x7f, 0x9f, 0x22, 0x6f, 0xd2, 0x57, 0x73, 0x2f, 0x28, 0x84, 0x80, 0x31, 0x8a, 0x80, 0xa2] +
    [0x45, 0xab, 0x12, 0x0c, 0xc3, 0x87, 0x32, 0x6d, 0x29, 0xa2, 0x3c, 0xcc, 0x72, 0x6f, 0x92, 0xb7, 0xe8, 0xd9, 0x4d, 0x75, 0xfa, 0xcf, 0xfe, 0xed, 0x4c, 0x26, 0xc9, 0x64, 0xef, 0x9e, 0x3d, 0xe7, 0xec, 0x49, 0x79] +
    [0xdb, 0x65, 0x7b, 0xca, 0xd4, 0x67, 0x8a, 0xd8, 0x12, 0xd3, 0x88, 0x69, 0xce, 0xb4, 0x08, 0xf2, 0xc3, 0x94, 0x6d, 0x9b, 0x29, 0x66, 0x3a, 0xd7, 0x6b, 0x5e, 0xdc, 0xc5, 0xc5, 0xae] +
    [0x8b, 0xa3, 0xc6, 0xf8, 0x61, 0xcf, 0x0f, 0x52, 0xa6, 0x29, 0xd3, 0x11, 0x53, 0xc6, 0x74, 0x89, 0x83, 0x3e, 0x8c, 0xb4, 0xf7, 0x99, 0x6d, 0x88, 0x97, 0xfd, 0x4b, 0xcb, 0xf7] +
    [0x1f, 0x8c, 0x8f, 0x81, 0x50, 0x67, 0x1a, 0xb3, 0x8d, 0x8a, 0x46, 0xe6, 0x9a, 0x68, 0x58, 0xb8, 0x65, 0x02, 0x1c, 0x77, 0x0f, 0x88, 0x53, 0x05, 0x4f, 0xcd, 0xfe, 0x15, 0x8f, 0xc8] +
    [0xdd, 0x87, 0x6c, 0x63, 0xb6, 0x2d, 0xa6, 0xeb, 0x0a, 0xdb, 0x2f, 0x41, 0xad, 0xad, 0x04, 0xc7, 0x02, 0x64, 0x41, 0xb3, 0x69, 0xdc, 0xae, 0x86, 0xe9, 0x2e, 0xd9, 0x32, 0xad, 0x84, 0x39, 0x25, 0x28, 0xb8] +
    [0x93, 0xa1, 0x12, 0x18, 0xea, 0xc0, 0x1b, 0xa6, 0x99, 0x30, 0x6d, 0x00, 0x2d, 0x7f, 0xdc, 0x04, 0x5a, 0xfa, 0xaa, 0xa5, 0xd1, 0x7e, 0xd3, 0xf4, 0xf5, 0x91, 0x11] +
    [0xc6, 0x22, 0x1e, 0x85, 0x65, 0x35, 0x30, 0xd0, 0xfa, 0x3d, 0x46, 0x08, 0x07, 0x6b, 0x5d, 0x6b, 0xe8, 0xb6, 0x3f, 0xf1, 0xd1, 0x45, 0x0d, 0x65, 0x92, 0x1a, 0xe3, 0x0e, 0x43, 0xa9, 0xbc, 0x3e, 0xe1, 0xce] +
    [0xf4, 0x86, 0x49, 0xa5, 0x0c, 0x83, 0xcc, 0x71, 0x20, 0x28, 0xe2, 0x5a, 0x2a, 0x27, 0x6a, 0xe7, 0xea, 0xc4, 0xc2, 0xb8, 0x7a, 0xa6, 0x02, 0xc4, 0xc5, 0xfc, 0xe4, 0x28, 0xef, 0x3e, 0x41, 0x52, 0x3e, 0x7a, 0x50] +
    [0x9d, 0x30, 0xbc, 0x6e, 0x60, 0x16, 0x0e, 0x16, 0x19, 0x68, 0xcc, 0xdd, 0x49, 0xc7, 0x85, 0x9d, 0x0a, 0x43, 0xcd, 0xad, 0x07, 0xc5, 0x16, 0xe4, 0x3a, 0x52, 0x7b, 0xdd, 0xfa, 0xde, 0x2f, 0xa6] +
    [0x35, 0x58, 0x4c, 0xca, 0xda, 0xa4, 0xa4, 0x63, 0x77, 0xfc, 0xa2, 0x8b, 0xc8, 0xc4, 0x01, 0xe9, 0x9b, 0x06, 0xc5, 0x38, 0x12, 0x11, 0x30, 0x85, 0xa6, 0xc5, 0x2d, 0xe8, 0x9c, 0x41] +
    [0x9a, 0x31, 0xfa, 0x9c, 0xef, 0xd7, 0xbd, 0xfc, 0x1c, 0xdf, 0x16, 0xc2, 0x1d, 0x6e, 0x52, 0x5a, 0xde, 0x6c, 0x95, 0x49, 0xa6, 0xe2, 0x67, 0x4c, 0x13, 0xa3, 0xde, 0x63, 0xe6, 0x0f] +
    [0xe8, 0x12, 0x1d, 0xe0, 0x3d, 0x9c, 0xab, 0x57, 0x91, 0x6a, 0x8a, 0xe4, 0x00, 0x4c, 0x92, 0x63, 0x53, 0xa3, 0xc6, 0xb7, 0x75, 0xaa, 0xac, 0x19, 0x6e, 0x03, 0x1e, 0x0b, 0x2d, 0xc2, 0x67] +
    [0xd9, 0x83, 0x05, 0xa9, 0xa3, 0x2f, 0x46, 0x15, 0xdc, 0x01, 0xbd, 0xbc, 0x06, 0x4e, 0x5c, 0x4e, 0x07, 0x12, 0x9a, 0xf5, 0xe1, 0x3b, 0x60, 0xa6, 0x9c, 0x2e, 0x85, 0xe7, 0x05, 0x4c, 0x2c] +
    [0xc5, 0x2e, 0x48, 0xdf, 0x41, 0xc5, 0x83, 0xf6, 0x66, 0x12, 0x04, 0x1b, 0x9a, 0x3f, 0x3b, 0xa2, 0x39, 0xf2, 0x85, 0xce, 0xc0, 0x37, 0xd7, 0xbe, 0x96, 0x68, 0x38, 0xac, 0x8b, 0xe1, 0x73, 0xe2, 0x67] +
    [0xdf, 0x34, 0xcc, 0x9a, 0x18, 0xb1, 0x61, 0x24, 0x7d, 0xa6, 0x98, 0x1c, 0x14, 0x49, 0xa8, 0xfb, 0x7e, 0xd3, 0x6b, 0xc0, 0xb6, 0xa6, 0x2e, 0x3f, 0x2a, 0x83, 0xfe, 0xc7, 0x16, 0x6f, 0x2a, 0xa1, 0xd0] +
    [0xe0, 0x36, 0xe3, 0x6a, 0x15, 0x66, 0xbf, 0xee, 0xb8, 0x8b, 0x49, 0xde, 0x9d, 0x40, 0x72, 0xd9, 0xe8, 0xa8, 0x53, 0x63, 0x6d, 0x7a, 0x53, 0x1f, 0x66, 0xc6, 0xf5, 0xae, 0x24, 0x8f, 0xd6, 0x7a, 0xfb, 0xac] +
    [0x85, 0x9d, 0x82, 0x9f, 0xe9, 0x95, 0x06, 0xbe, 0x1e, 0xbb, 0x64, 0x25, 0xab, 0xef, 0x8e, 0xd4, 0xfc, 0xb6, 0xfa, 0x7f, 0x56, 0x19, 0xfe, 0x5d, 0x59, 0xb6, 0x34, 0x65] +
    [0x95, 0xde, 0x85, 0x12, 0xa4, 0xca, 0x54, 0x8d, 0xd6, 0x47, 0x7c, 0x40, 0xe7, 0x5f, 0xd5, 0x98, 0xbf, 0x45, 0x04, 0x9f, 0x88, 0x90, 0x5f, 0xeb, 0x6e, 0xf9, 0x9e, 0xa7, 0xb0] +
    [0xca, 0x84, 0x6b, 0x36, 0xf4, 0x05, 0xfb, 0xe8, 0x56, 0x5c, 0x25, 0x47, 0xbe, 0xb6, 0x12, 0x77, 0x0f, 0x48, 0xb7, 0x3f, 0x75, 0x4f, 0x48, 0x50, 0xf2, 0x1f, 0xff, 0x1d, 0x55, 0x88, 0x3f, 0x6b, 0x91, 0x85, 0x45] +
    [0x1a, 0xa6, 0xdf, 0xe4, 0x8d, 0x6d, 0x3c, 0x3a, 0x05, 0x00, 0x00]

  lemma GzipLength()
    ensures |GzippedBody| == 644
  {
  }
}
